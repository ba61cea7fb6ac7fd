/** Which dispatch of each task a phase currently stands on. */
module DispatchSelection {
  import opened CodeUnits
  import opened Options

  type Id = Text

  datatype Dispatch = Dispatch(id: Id, runId: Id, task: Id, ordinal: nat)

  /** What the selection reads besides the stored dispatches. */
  datatype View = View(runId: Id, phaseKey: string, owner: map<Id, string>, handedIn: set<Id>, accepted: set<Id>)

  /** A dispatch of this run for a task of this phase. */
  predicate InPhase(v: View, d: Dispatch) { d.runId == v.runId && d.task in v.owner && v.owner[d.task] == v.phaseKey }

  /** Whether `d` replaces `held`: on an accepted task having handed in comes
      before the ordinal, on any other task the ordinal alone decides. */
  predicate Replaces(v: View, d: Dispatch, held: Dispatch) {
    if d.task !in v.accepted || (d.id in v.handedIn <==> held.id in v.handedIn) then d.ordinal >= held.ordinal
    else d.id in v.handedIn
  }

  /** The order behind the comparison: handing in counts on accepted tasks only. */
  function Weight(v: View, d: Dispatch): nat { if d.task in v.accepted && d.id in v.handedIn then 1 else 0 }

  predicate Below(v: View, a: Dispatch, b: Dispatch) {
    Weight(v, a) < Weight(v, b) || (Weight(v, a) == Weight(v, b) && a.ordinal < b.ordinal)
  }

  lemma ReplacesIsNotBelow(v: View, d: Dispatch, held: Dispatch)
    requires d.task == held.task
    ensures Replaces(v, d, held) <==> !Below(v, d, held)
  {
  }

  /** The stored position that wins its task: nothing of that task stands above
      it, and among equals it was stored last. */
  ghost predicate Wins(v: View, ds: seq<Dispatch>, i: int) {
    && 0 <= i < |ds| && InPhase(v, ds[i])
    && forall j :: 0 <= j < |ds| && InPhase(v, ds[j]) && ds[j].task == ds[i].task ==>
         !Below(v, ds[i], ds[j]) && (j > i ==> Below(v, ds[j], ds[i]))
  }

  ghost predicate WinnerOf(v: View, ds: seq<Dispatch>, task: Id, d: Dispatch) {
    exists i :: Wins(v, ds, i) && ds[i] == d && d.task == task
  }

  /** The phase's dispatched tasks, in the order each was first stored. */
  function FirstSeen(v: View, ds: seq<Dispatch>): (tasks: seq<Id>)
    ensures forall t :: t in tasks <==> exists j :: 0 <= j < |ds| && InPhase(v, ds[j]) && ds[j].task == t
    ensures forall i, j :: 0 <= i < j < |tasks| ==> tasks[i] != tasks[j]
  {
    if ds == [] then []
    else
      var front := ds[..|ds| - 1];
      var last := ds[|ds| - 1];
      var tasks := FirstSeen(v, front);
      assert forall j :: 0 <= j < |front| ==> ds[j] == front[j];
      if InPhase(v, last) && last.task !in tasks then tasks + [last.task] else tasks
  }

  /** The dispatch held for a task after the stored ones have been seen in turn. */
  function Held(v: View, ds: seq<Dispatch>, task: Id): (held: Option<Dispatch>)
    ensures held.Some? <==> exists j :: 0 <= j < |ds| && InPhase(v, ds[j]) && ds[j].task == task
  {
    if ds == [] then None
    else
      var front := ds[..|ds| - 1];
      var last := ds[|ds| - 1];
      var held := Held(v, front, task);
      assert forall j :: 0 <= j < |front| ==> ds[j] == front[j];
      if InPhase(v, last) && last.task == task && (held.None? || Replaces(v, last, held.value)) then Some(last) else held
  }

  function CurrentAt(v: View, ds: seq<Dispatch>, k: nat): (d: Dispatch)
    requires k < |FirstSeen(v, ds)|
    ensures Held(v, ds, FirstSeen(v, ds)[k]) == Some(d)
  {
    assert FirstSeen(v, ds)[k] in FirstSeen(v, ds);
    Held(v, ds, FirstSeen(v, ds)[k]).value
  }

  /** One held dispatch per task, in the order the tasks were first stored. */
  function Current(v: View, ds: seq<Dispatch>): (current: seq<Dispatch>)
    ensures |current| == |FirstSeen(v, ds)|
    ensures forall k {:trigger current[k]} :: 0 <= k < |current| ==> Held(v, ds, FirstSeen(v, ds)[k]) == Some(current[k])
  {
    seq(|FirstSeen(v, ds)|, k requires 0 <= k < |FirstSeen(v, ds)| => CurrentAt(v, ds, k))
  }

  lemma OneMoreStored(v: View, front: seq<Dispatch>, last: Dispatch)
    ensures FirstSeen(v, front + [last]) ==
            FirstSeen(v, front) + (if InPhase(v, last) && last.task !in FirstSeen(v, front) then [last.task] else [])
    ensures forall task {:trigger Held(v, front, task)} {:trigger Held(v, front + [last], task)} ::
              Held(v, front + [last], task) ==
              var held := Held(v, front, task);
              if InPhase(v, last) && last.task == task && (held.None? || Replaces(v, last, held.value)) then Some(last) else held
  {
    hide InPhase, Replaces;
    var ds := front + [last];
    assert ds[..|ds| - 1] == front && ds[|ds| - 1] == last;
  }

  ghost predicate SeenSoFar(v: View, ds: seq<Dispatch>, tasks: seq<Id>, byTask: map<Id, Dispatch>) {
    && tasks == FirstSeen(v, ds)
    && (forall t :: t in byTask <==> t in tasks)
    && forall t :: t in byTask ==> Held(v, ds, t) == Some(byTask[t])
  }

  lemma NothingSeen(v: View)
    ensures SeenSoFar(v, [], [], map[])
  {
  }

  lemma AllHaveOne(v: View, ds: seq<Dispatch>, tasks: seq<Id>, byTask: map<Id, Dispatch>)
    requires SeenSoFar(v, ds, tasks, byTask)
    ensures forall k :: 0 <= k < |tasks| ==> tasks[k] in byTask
  {
    hide FirstSeen, Held;
  }

  lemma FirstOfItsTask(v: View, ds: seq<Dispatch>, c: Dispatch, tasks: seq<Id>, byTask: map<Id, Dispatch>)
    requires SeenSoFar(v, ds, tasks, byTask) && InPhase(v, c) && c.task !in byTask
    ensures SeenSoFar(v, ds + [c], tasks + [c.task], byTask[c.task := c])
  {
    hide FirstSeen, Held, InPhase, Replaces;
    OneMoreStored(v, ds, c);
    NotSeenIsNotHeld(v, ds, c.task);
  }

  lemma NotSeenIsNotHeld(v: View, ds: seq<Dispatch>, task: Id)
    ensures Held(v, ds, task).None? <==> task !in FirstSeen(v, ds)
  {
    hide InPhase, FirstSeen, Held;
  }

  lemma AnotherOfItsTask(v: View, ds: seq<Dispatch>, c: Dispatch, tasks: seq<Id>, byTask: map<Id, Dispatch>)
    requires SeenSoFar(v, ds, tasks, byTask) && InPhase(v, c) && c.task in byTask
    ensures SeenSoFar(v, ds + [c], tasks, if Replaces(v, c, byTask[c.task]) then byTask[c.task := c] else byTask)
  {
    hide FirstSeen, Held, InPhase, Replaces;
    OneMoreStored(v, ds, c);
  }

  lemma OfAnotherPhase(v: View, ds: seq<Dispatch>, c: Dispatch, tasks: seq<Id>, byTask: map<Id, Dispatch>)
    requires SeenSoFar(v, ds, tasks, byTask) && !InPhase(v, c)
    ensures SeenSoFar(v, ds + [c], tasks, byTask)
  {
    hide FirstSeen, Held, InPhase, Replaces;
    OneMoreStored(v, ds, c);
  }

  lemma AllSeen(v: View, ds: seq<Dispatch>, tasks: seq<Id>, byTask: map<Id, Dispatch>, current: seq<Dispatch>)
    requires SeenSoFar(v, ds, tasks, byTask) && |current| == |tasks|
    requires forall k :: 0 <= k < |tasks| ==> tasks[k] in byTask && current[k] == byTask[tasks[k]]
    ensures current == Current(v, ds)
  {
    hide FirstSeen, Held, CurrentAt, Current;
    forall k | 0 <= k < |current| ensures current[k] == Current(v, ds)[k] {
      assert Held(v, ds, tasks[k]) == Some(byTask[tasks[k]]);
    }
  }

  /** The map grown by the loop: one dispatch held per task, in insertion order. */
  method CurrentPhaseDispatches(v: View, dispatches: seq<Dispatch>) returns (current: seq<Dispatch>)
    ensures current == Current(v, dispatches)
  {
    hide SeenSoFar, Current;
    var tasks: seq<Id> := [];
    var byTask: map<Id, Dispatch> := map[];
    var n := 0;
    NothingSeen(v);
    while n < |dispatches|
      invariant 0 <= n <= |dispatches|
      invariant SeenSoFar(v, dispatches[..n], tasks, byTask)
    {
      var candidate := dispatches[n];
      assert dispatches[..n + 1] == dispatches[..n] + [candidate];
      if InPhase(v, candidate) {
        if candidate.task !in byTask {
          FirstOfItsTask(v, dispatches[..n], candidate, tasks, byTask);
          tasks := tasks + [candidate.task];
          byTask := byTask[candidate.task := candidate];
        } else {
          AnotherOfItsTask(v, dispatches[..n], candidate, tasks, byTask);
          var held := byTask[candidate.task];
          if candidate.task !in v.accepted {
            if candidate.ordinal >= held.ordinal {
              byTask := byTask[candidate.task := candidate];
            }
          } else if candidate.id in v.handedIn <==> held.id in v.handedIn {
            if candidate.ordinal >= held.ordinal {
              byTask := byTask[candidate.task := candidate];
            }
          } else if candidate.id in v.handedIn {
            byTask := byTask[candidate.task := candidate];
          }
        }
      } else {
        OfAnotherPhase(v, dispatches[..n], candidate, tasks, byTask);
      }
      n := n + 1;
    }
    assert dispatches[..n] == dispatches;
    AllHaveOne(v, dispatches, tasks, byTask);
    current := seq(|tasks|, k requires 0 <= k < |tasks| && tasks[k] in byTask => byTask[tasks[k]]);
    AllSeen(v, dispatches, tasks, byTask, current);
  }

  /** What is held for a task wins it. */
  lemma {:induction false} HeldWins(v: View, ds: seq<Dispatch>, task: Id)
    requires Held(v, ds, task).Some?
    ensures WinnerOf(v, ds, task, Held(v, ds, task).value)
  {
    var front, last := ds[..|ds| - 1], ds[|ds| - 1];
    assert ds == front + [last];
    if Held(v, front, task).None? {
      FirstOfTaskWins(v, front, last);
    } else {
      var held := Held(v, front, task).value;
      HeldWins(v, front, task);
      if InPhase(v, last) && last.task == task {
        ReplacesIsNotBelow(v, last, held);
        ChallengeIsDecided(v, front, last, held);
      } else {
        var i :| Wins(v, front, i) && front[i] == held;
        assert Wins(v, ds, i);
      }
    }
  }

  /** Exactly one dispatch of each dispatched task is selected, and it wins the task. */
  lemma SelectedAreTheWinners(v: View, ds: seq<Dispatch>, d: Dispatch)
    ensures d in Current(v, ds) <==> WinnerOf(v, ds, d.task, d)
    ensures forall i, j :: 0 <= i < j < |Current(v, ds)| ==> Current(v, ds)[i].task != Current(v, ds)[j].task
  {
    var tasks := FirstSeen(v, ds);
    forall k | 0 <= k < |tasks| ensures WinnerOf(v, ds, tasks[k], Current(v, ds)[k]) {
      assert Held(v, ds, tasks[k]) == Some(Current(v, ds)[k]);
      HeldWins(v, ds, tasks[k]);
    }
    if WinnerOf(v, ds, d.task, d) {
      var i :| Wins(v, ds, i) && ds[i] == d;
      assert d.task in tasks;
      var k :| 0 <= k < |tasks| && tasks[k] == d.task;
      WinnerIsUnique(v, ds, d.task, d, Current(v, ds)[k]);
    }
  }

  lemma FirstOfTaskWins(v: View, ds: seq<Dispatch>, d: Dispatch)
    requires InPhase(v, d) && forall j :: 0 <= j < |ds| && InPhase(v, ds[j]) ==> ds[j].task != d.task
    ensures WinnerOf(v, ds + [d], d.task, d)
  {
    assert Wins(v, ds + [d], |ds|);
  }

  lemma ChallengeIsDecided(v: View, ds: seq<Dispatch>, d: Dispatch, held: Dispatch)
    requires InPhase(v, d) && WinnerOf(v, ds, d.task, held)
    ensures WinnerOf(v, ds + [d], d.task, if Below(v, d, held) then held else d)
  {
    var i :| Wins(v, ds, i) && ds[i] == held;
    if Below(v, d, held) {
      assert Wins(v, ds + [d], i);
    } else {
      assert Wins(v, ds + [d], |ds|);
    }
  }

  // ----- what the selection means

  lemma WinnerIsUnique(v: View, ds: seq<Dispatch>, task: Id, a: Dispatch, b: Dispatch)
    requires WinnerOf(v, ds, task, a) && WinnerOf(v, ds, task, b)
    ensures a == b
  {
    var i :| Wins(v, ds, i) && ds[i] == a;
    var j :| Wins(v, ds, j) && ds[j] == b;
    assert i == j;
  }

  /** The same stored dispatches in another order. */
  ghost predicate Rearranged(a: seq<Dispatch>, b: seq<Dispatch>) { multiset(a) == multiset(b) }

  lemma RearrangedHold(a: seq<Dispatch>, b: seq<Dispatch>)
    requires Rearranged(a, b)
    ensures forall d :: d in a <==> d in b
  {
    forall d ensures d in a <==> d in b { assert d in multiset(a) <==> d in multiset(b); }
  }

  function MovedToTheEnd(ds: seq<Dispatch>, i: nat): seq<Dispatch>
    requires i < |ds|
  {
    ds[..i] + ds[i + 1..] + [ds[i]]
  }

  lemma MovingRearranges(ds: seq<Dispatch>, i: nat)
    requires i < |ds|
    ensures Rearranged(ds, MovedToTheEnd(ds, i))
  {
    assert ds == ds[..i] + [ds[i]] + ds[i + 1..];
  }

  /** The dispatches of a task that nothing of that task stands above. */
  ghost predicate OnTop(v: View, ds: seq<Dispatch>, d: Dispatch) {
    d in ds && InPhase(v, d) && forall e :: e in ds && InPhase(v, e) && e.task == d.task ==> !Below(v, d, e)
  }

  lemma WinnerIsOnTop(v: View, ds: seq<Dispatch>, task: Id, d: Dispatch)
    requires WinnerOf(v, ds, task, d)
    ensures OnTop(v, ds, d)
  {
    var i :| Wins(v, ds, i) && ds[i] == d;
    forall e | e in ds && InPhase(v, e) && e.task == d.task ensures !Below(v, d, e) {
      var j :| 0 <= j < |ds| && ds[j] == e;
    }
  }

  lemma {:induction false} LastOnTopWins(v: View, ds: seq<Dispatch>, d: Dispatch)
    requires OnTop(v, ds + [d], d)
    ensures WinnerOf(v, ds + [d], d.task, d)
  {
    var all := ds + [d];
    forall j | 0 <= j < |all| && InPhase(v, all[j]) && all[j].task == d.task ensures !Below(v, d, all[j]) {
      assert all[j] in all;
    }
    assert Wins(v, all, |ds|);
  }

  /** One dispatch of each dispatched task is on top exactly when the order in
      which the same dispatches are stored never changes which one is selected. */
  lemma SelectionIgnoresStorageOrder(v: View, ds: seq<Dispatch>, task: Id)
    requires exists j :: 0 <= j < |ds| && InPhase(v, ds[j]) && ds[j].task == task
    ensures (forall d, e :: OnTop(v, ds, d) && OnTop(v, ds, e) && d.task == task && e.task == task ==> d == e)
            <==>
            (forall other, d, e :: Rearranged(ds, other) && WinnerOf(v, ds, task, d) && WinnerOf(v, other, task, e) ==> d == e)
  {
    if forall d, e :: OnTop(v, ds, d) && OnTop(v, ds, e) && d.task == task && e.task == task ==> d == e {
      forall other, d, e | Rearranged(ds, other) && WinnerOf(v, ds, task, d) && WinnerOf(v, other, task, e) ensures d == e {
        RearrangedHold(ds, other);
        WinnerIsOnTop(v, ds, task, d);
        WinnerIsOnTop(v, other, task, e);
        assert OnTop(v, ds, e);
      }
    } else {
      var a, b :| OnTop(v, ds, a) && OnTop(v, ds, b) && a.task == task && b.task == task && a != b;
      HeldWins(v, ds, task);
      var winner := Held(v, ds, task).value;
      var rival := if winner == a then b else a;
      var i :| 0 <= i < |ds| && ds[i] == rival;
      var other := MovedToTheEnd(ds, i);
      MovingRearranges(ds, i);
      RearrangedHold(ds, other);
      assert OnTop(v, other, rival);
      LastOnTopWins(v, ds[..i] + ds[i + 1..], rival);
      assert WinnerOf(v, ds, task, winner) && WinnerOf(v, other, task, rival);
    }
  }

  /** Dispatches of one task never share an ordinal. */
  ghost predicate DistinctOrdinals(ds: seq<Dispatch>) {
    forall d, e :: d in ds && e in ds && d.runId == e.runId && d.task == e.task && d.ordinal == e.ordinal ==> d == e
  }

  /** With distinct ordinals the selected set is the same for every storage order. */
  lemma SelectionIsStable(v: View, ds: seq<Dispatch>, other: seq<Dispatch>, task: Id, d: Dispatch)
    requires DistinctOrdinals(ds) && Rearranged(ds, other)
    ensures WinnerOf(v, ds, task, d) <==> WinnerOf(v, other, task, d)
  {
    RearrangedHold(ds, other);
    if WinnerOf(v, ds, task, d) {
      WinnerMoves(v, ds, other, task, d);
    }
    if WinnerOf(v, other, task, d) {
      WinnerMoves(v, other, ds, task, d);
    }
  }

  lemma WinnerMoves(v: View, ds: seq<Dispatch>, other: seq<Dispatch>, task: Id, d: Dispatch)
    requires DistinctOrdinals(ds) && Rearranged(ds, other) && WinnerOf(v, ds, task, d)
    ensures WinnerOf(v, other, task, d)
  {
    RearrangedHold(ds, other);
    WinnerIsOnTop(v, ds, task, d);
    var j :| 0 <= j < |other| && other[j] == d;
    HeldWins(v, other, task);
    var e := Held(v, other, task).value;
    WinnerIsOnTop(v, other, task, e);
    assert e in ds;
    assert !Below(v, d, e) && !Below(v, e, d);
  }

  // ----- the dispatch a step is about

  function InsertedByOrdinal(x: Dispatch, sorted: seq<Dispatch>): seq<Dispatch> {
    if sorted == [] || x.ordinal < sorted[0].ordinal then [x] + sorted else [sorted[0]] + InsertedByOrdinal(x, sorted[1..])
  }

  function SortedByOrdinal(ds: seq<Dispatch>): seq<Dispatch> {
    if ds == [] then [] else InsertedByOrdinal(ds[|ds| - 1], SortedByOrdinal(ds[..|ds| - 1]))
  }

  function FirstOwing(handedIn: set<Id>, ds: seq<Dispatch>): Option<Dispatch> {
    if ds == [] then None else if ds[0].id !in handedIn then Some(ds[0]) else FirstOwing(handedIn, ds[1..])
  }

  /** The first current dispatch that has not handed in, or else the last one. */
  function Carried(v: View, ds: seq<Dispatch>): Option<Dispatch> {
    var members := SortedByOrdinal(Current(v, ds));
    var owing := FirstOwing(v.handedIn, members);
    if owing.Some? then owing else if members == [] then None else Some(members[|members| - 1])
  }

  lemma Counted(a: seq<Dispatch>, b: seq<Dispatch>)
    ensures multiset(a + b) == multiset(a) + multiset(b)
  {
  }

  lemma {:induction false} InsertedHolds(x: Dispatch, sorted: seq<Dispatch>)
    ensures multiset(InsertedByOrdinal(x, sorted)) == multiset(sorted) + multiset{x}
  {
    if sorted == [] || x.ordinal < sorted[0].ordinal {
      Counted([x], sorted);
    } else {
      var rest := InsertedByOrdinal(x, sorted[1..]);
      assert InsertedByOrdinal(x, sorted) == [sorted[0]] + rest;
      hide InsertedByOrdinal;
      InsertedHolds(x, sorted[1..]);
      assert sorted == [sorted[0]] + sorted[1..];
      Counted([sorted[0]], sorted[1..]);
      Counted([sorted[0]], rest);
    }
  }

  lemma SortedUnfolds(front: seq<Dispatch>, last: Dispatch)
    ensures SortedByOrdinal(front + [last]) == InsertedByOrdinal(last, SortedByOrdinal(front))
  {
    hide InsertedByOrdinal;
    assert (front + [last])[..|front|] == front;
  }

  lemma {:induction false} SortingKeeps(ds: seq<Dispatch>)
    ensures multiset(SortedByOrdinal(ds)) == multiset(ds)
  {
    if ds != [] {
      hide InsertedByOrdinal, SortedByOrdinal;
      var front, last := ds[..|ds| - 1], ds[|ds| - 1];
      assert ds == front + [last];
      SortedUnfolds(front, last);
      SortingKeeps(front);
      InsertedHolds(last, SortedByOrdinal(front));
      Counted(front, [last]);
    }
  }

  lemma {:induction false} OwingIsTheFirst(handedIn: set<Id>, ds: seq<Dispatch>)
    ensures FirstOwing(handedIn, ds).None? <==> forall d :: d in ds ==> d.id in handedIn
    ensures FirstOwing(handedIn, ds).Some? ==>
              FirstOwing(handedIn, ds).value in ds && FirstOwing(handedIn, ds).value.id !in handedIn
  {
    if ds != [] {
      assert ds == [ds[0]] + ds[1..];
      OwingIsTheFirst(handedIn, ds[1..]);
    }
  }

  /** There is a carried dispatch as soon as the phase has dispatched anything; it
      is a current one, and it has handed in only when every current one has. */
  lemma CarriedMeans(v: View, ds: seq<Dispatch>)
    ensures Carried(v, ds).None? <==> forall d :: d in ds ==> !InPhase(v, d)
    ensures Carried(v, ds).Some? ==> Carried(v, ds).value in Current(v, ds)
    ensures Carried(v, ds).Some? && Carried(v, ds).value.id in v.handedIn ==>
              forall d :: d in Current(v, ds) ==> d.id in v.handedIn
  {
    hide Current, SortedByOrdinal, FirstOwing, InPhase;
    var current := Current(v, ds);
    NoneIsCurrent(v, ds);
    SortedHolds(current);
    OwingIsTheFirst(v.handedIn, SortedByOrdinal(current));
  }

  lemma NoneIsCurrent(v: View, ds: seq<Dispatch>)
    ensures Current(v, ds) == [] <==> forall d :: d in ds ==> !InPhase(v, d)
  {
    hide InPhase;
    var tasks := FirstSeen(v, ds);
    if tasks != [] {
      assert tasks[0] in tasks;
    }
    forall d | d in ds && InPhase(v, d) ensures tasks != [] {
      assert d.task in tasks;
    }
  }

  lemma SortedHolds(ds: seq<Dispatch>)
    ensures SortedByOrdinal(ds) == [] <==> ds == []
    ensures forall d :: d in SortedByOrdinal(ds) <==> d in ds
  {
    hide SortedByOrdinal;
    SortingKeeps(ds);
    forall d ensures d in SortedByOrdinal(ds) <==> d in ds {
      assert d in multiset(SortedByOrdinal(ds)) <==> d in multiset(ds);
    }
    assert |multiset(SortedByOrdinal(ds))| == |multiset(ds)|;
  }

  // ----- the newest try of a member

  /** Of the run's dispatches of the carried task, one with the highest ordinal;
      the carried one when nothing is higher. */
  function NewestOf(dispatches: seq<Dispatch>, runId: Id, carried: Dispatch): (latest: Dispatch)
    ensures latest == carried || (latest in dispatches && latest.runId == runId && latest.task == carried.task)
    ensures forall d :: d in dispatches && d.runId == runId && d.task == carried.task ==> d.ordinal <= latest.ordinal
    ensures carried.ordinal <= latest.ordinal && (latest.ordinal == carried.ordinal ==> latest == carried)
  {
    if dispatches == [] then carried
    else
      var front := dispatches[..|dispatches| - 1];
      var candidate := dispatches[|dispatches| - 1];
      var latest := NewestOf(front, runId, carried);
      assert dispatches == front + [candidate];
      if candidate.runId == runId && candidate.task == carried.task && candidate.ordinal > latest.ordinal then candidate else latest
  }

  method NewestTryOf(dispatches: seq<Dispatch>, runId: Id, carried: Dispatch) returns (latest: Dispatch)
    ensures latest == NewestOf(dispatches, runId, carried)
  {
    latest := carried;
    for n := 0 to |dispatches|
      invariant latest == NewestOf(dispatches[..n], runId, carried)
    {
      var candidate := dispatches[n];
      assert dispatches[..n + 1][..n] == dispatches[..n];
      if candidate.runId == runId && candidate.task == carried.task && candidate.ordinal > latest.ordinal {
        latest := candidate;
      }
    }
    assert dispatches[..|dispatches|] == dispatches;
  }
}
