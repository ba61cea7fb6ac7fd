/** Every step of the driver keeps the invariant, and none is ever refused for
    opening a second turn on a task. */
module RunDriverSteps {
  import opened CodeUnits
  import opened Options
  import opened DispatchSelection
  import opened RunDriverModel
  import opened RunDriverInvariants
  import opened RunDriverChanges
  import opened RunDriverRecords
  import Coverage = TaskCoverage

  // ----- ended turns are recorded first

  lemma {:induction false} TaskOfIsStored(ds: seq<Dispatch>, id: Id)
    requires IsStored(ds, id)
    ensures StoredFor(ds, id, TaskOf(ds, id))
  {
    if ds[0].id != id {
      var i :| 0 <= i < |ds| && ds[i].id == id;
      assert ds[1..][i - 1].id == id;
      TaskOfIsStored(ds[1..], id);
      var j :| 0 <= j < |ds[1..]| && ds[1..][j].id == id && ds[1..][j].task == TaskOf(ds, id);
      assert ds[j + 1].id == id;
    }
  }

  lemma ClosingSettles(r: Run)
    ensures Settles(r, CloseEnded(r).attempts) && CloseEnded(r) == r.(attempts := CloseEnded(r).attempts)
  {
    hide EndedAs;
    forall id | id in CloseEnded(r).attempts && !AttemptOver(r, id) && EndedAs(r, id).Some? && Stored(r, id)
      ensures CloseEnded(r).attempts[id].disposition != Opened && StoredFor(r.dispatches, id, CloseEnded(r).attempts[id].task)
    {
      TaskOfIsStored(r.dispatches, id);
      EndingsAreNotOpen(r, id);
    }
  }

  lemma EndingsAreNotOpen(r: Run, id: Id)
    ensures EndedAs(r, id).Some? ==> EndedAs(r, id).value in {Closed, Suspended, Fail}
  {
  }

  /** No turn on an accepted task is open. */
  ghost predicate AcceptedAreOver(r: Run) {
    forall i :: 0 <= i < |r.dispatches| && r.dispatches[i].runId == r.runId && TaskAccepted(r, r.dispatches[i].task) ==>
      !AttemptOpen(r, r.dispatches[i].id)
  }

  lemma ClosingEndsAccepted(r: Run)
    ensures AcceptedAreOver(CloseEnded(r))
  {
    var c := CloseEnded(r);
    forall i | 0 <= i < |c.dispatches| && c.dispatches[i].runId == c.runId && TaskAccepted(c, c.dispatches[i].task)
      ensures !AttemptOpen(c, c.dispatches[i].id)
    {
      var id := r.dispatches[i].id;
      var k :| 0 <= k < |r.accepted| && r.accepted[k].id == r.dispatches[i].task;
      assert OnAccepted(r, id) && Stored(r, id);
      EndingsAreNotOpen(r, id);
    }
  }

  /** A turn that handed in is recorded as over. */
  ghost predicate CompletedAreOver(r: Run) {
    forall i :: 0 <= i < |r.dispatches| && r.dispatches[i].id in r.completions ==> !AttemptOpen(r, r.dispatches[i].id)
  }

  lemma ClosingEndsCompleted(r: Run)
    ensures CompletedAreOver(CloseEnded(r))
  {
    var c := CloseEnded(r);
    forall i | 0 <= i < |c.dispatches| && c.dispatches[i].id in c.completions ensures !AttemptOpen(c, c.dispatches[i].id) {
      assert Stored(r, r.dispatches[i].id);
      EndingsAreNotOpen(r, r.dispatches[i].id);
    }
  }

  ghost predicate Settled(r: Run) { RunOk(r) && AcceptedAreOver(r) && CompletedAreOver(r) }

  lemma ClosingKeeps(r: Run)
    requires RunOk(r)
    ensures Settled(CloseEnded(r))
  {
    hide RunOk, Settles, CloseEnded, AcceptedAreOver, CompletedAreOver;
    ClosingEndsCompleted(r);
    ClosingSettles(r);
    SettlingKeeps(r, CloseEnded(r).attempts);
    ClosingEndsAccepted(r);
  }

  // ----- which turns may be open

  /** No turn of this task is open. */
  ghost predicate NoneOpen(r: Run, task: Id) {
    forall i :: 0 <= i < |r.dispatches| && Mine(r, task, r.dispatches[i]) ==> !AttemptOpen(r, r.dispatches[i].id)
  }

  lemma OpenIsCarried(r: Run, d: Dispatch)
    requires OpenIsNewest(r) && OrdinalsOk(r) && AcceptedAreOver(r) && OwnersOk(r)
    requires OnTop(ViewOf(r), r.dispatches, d) && !AttemptOpen(r, d.id)
    ensures NoneOpen(r, d.task)
  {
    var k :| 0 <= k < |r.dispatches| && r.dispatches[k] == d;
    forall i | 0 <= i < |r.dispatches| && Mine(r, d.task, r.dispatches[i]) ensures !AttemptOpen(r, r.dispatches[i].id) {
      var e := r.dispatches[i];
      assert e in r.dispatches && InPhase(ViewOf(r), e) && !Below(ViewOf(r), d, e);
      assert TaskAccepted(r, e.task) <==> e.task in AcceptedIds(r);
      assert AttemptOpen(r, e.id) ==> Newest(r, e);
      assert Mine(r, e.task, r.dispatches[k]);
      assert SamePhase(r, r.dispatches[i], r.dispatches[k]) && SamePhase(r, r.dispatches[k], r.dispatches[i]);
      assert i != k ==> e.ordinal != d.ordinal;
    }
  }

  lemma NoneOpenIsFree(r: Run, task: Id, id: Id)
    requires NamesStored(r) && OpenIsNewest(r) && NoneOpen(r, task)
    ensures !OtherOpen(r, task, id)
  {
    forall other | other in r.attempts && other != id ensures r.attempts[other] != Attempt(task, Opened) {
      if r.attempts[other] == Attempt(task, Opened) {
        assert StoredFor(r.dispatches, other, task);
        var i :| 0 <= i < |r.dispatches| && r.dispatches[i].id == other && r.dispatches[i].task == task;
        assert AttemptOpen(r, r.dispatches[i].id);
        assert Newest(r, r.dispatches[i]);
        assert Mine(r, task, r.dispatches[i]);
      }
    }
  }

  lemma OpeningOpens(r: Run, id: Id, task: Id, ordinal: nat, made: Outcome)
    requires NamesStored(r) && OpenIsNewest(r) && NoneOpen(r, task) && !Stored(r, id)
    ensures DispatchAttempt(r, id, task, ordinal, made).outcome == made
    ensures Opens(r, DispatchAttempt(r, id, task, ordinal, made).run, Dispatch(id, r.runId, task, ordinal))
    ensures DispatchAttempt(r, id, task, ordinal, made).run.carrying == r.carrying
    ensures DispatchAttempt(r, id, task, ordinal, made).run.undelivered == r.undelivered
  {
    hide NamesStored, OpenIsNewest, NoneOpen;
    NoneOpenIsFree(r, task, id);
  }

  // ----- ordinals

  lemma AnsweredIsMine(r: Run, task: Id, ordinal: nat)
    requires ordinal > 0
    requires forall i :: 0 <= i < |r.dispatches| && Mine(r, task, r.dispatches[i]) ==> r.dispatches[i].ordinal < ordinal
    ensures AnsweredOrdinal(r, task) < ordinal
  {
    LastAnsweredIsAnOrdinal(r, r.dispatches, task);
  }

  lemma NextIsFree(r: Run, reading: Reading, task: Id)
    requires OwnersOk(r) && task in r.graph.owner && r.graph.owner[task] == r.phaseKey
    ensures NextAttempt(r, reading) > 0
    ensures forall i :: 0 <= i < |r.dispatches| && InPhase(ViewOf(r), r.dispatches[i]) ==> r.dispatches[i].ordinal < NextAttempt(r, reading)
    ensures forall i :: 0 <= i < |r.dispatches| && Mine(r, task, r.dispatches[i]) ==> r.dispatches[i].ordinal < NextAttempt(r, reading)
    ensures AnsweredOrdinal(r, task) < NextAttempt(r, reading)
  {
    HighestIsHighest(ViewOf(r), r.dispatches);
    forall i | 0 <= i < |r.dispatches| && Mine(r, task, r.dispatches[i]) ensures InPhase(ViewOf(r), r.dispatches[i]) { }
    AnsweredIsMine(r, task, NextAttempt(r, reading));
  }

  lemma TriedStays(r: Run, s: Run, d: Dispatch, task: Id)
    requires s.runId == r.runId && s.dispatches == r.dispatches + [d]
    ensures Tried(r, task) || (d.runId == r.runId && d.task == task) ==> Tried(s, task)
  {
    if Tried(r, task) {
      var i :| 0 <= i < |r.dispatches| && Mine(r, task, r.dispatches[i]);
      assert Mine(s, task, s.dispatches[i]);
    } else if d.runId == r.runId && d.task == task {
      assert Mine(s, task, s.dispatches[|r.dispatches|]);
    }
  }

  /** Every declared member has been dispatched. */
  ghost predicate NonePending(r: Run) {
    r.phaseKey in r.graph.phases
    && (r.graph.phases[r.phaseKey].fanOut ==>
          forall i :: 0 <= i < |r.graph.phases[r.phaseKey].tasks| ==> Tried(r, r.graph.phases[r.phaseKey].tasks[i].id))
  }

  lemma {:induction false} NonePendingStays(r: Run, s: Run, d: Dispatch)
    requires NonePending(r) && s.runId == r.runId && s.graph == r.graph && s.phaseKey == r.phaseKey && s.dispatches == r.dispatches + [d]
    ensures FirstsInOrder(s)
  {
    var tasks := r.graph.phases[r.phaseKey].tasks;
    forall i | 0 <= i < |tasks| && Tried(r, tasks[i].id) ensures Tried(s, tasks[i].id) { TriedStays(r, s, d, tasks[i].id); }
  }

  lemma TaskIsDeclared(r: Run, d: Dispatch)
    requires GraphOk(r.graph) && Reached(r) && InPhase(ViewOf(r), d)
    ensures var spec := r.graph.phases[r.phaseKey];
            spec.tasks != [] && RetryTask(spec, d.task) == d.task && (!spec.fanOut ==> spec.tasks[0].id == d.task)
  {
    assert Declares(r.graph.phases[r.graph.owner[d.task]].tasks, d.task);
    assert TasksOk(r.graph, r.phaseKey);
  }

  // ----- retries

  lemma RoomUnderCeiling(r: Run, task: Id)
    requires OwnersOk(r) && task in r.graph.owner && r.graph.owner[task] == r.phaseKey && r.phaseKey in r.graph.phases
    requires TaskAttempts(r, task) < r.graph.phases[r.phaseKey].maximumAttempts
    ensures CountIf(r.dispatches, e => PlainNew(r, task, AnsweredOrdinal(r, task), e)) < Allowance(r.graph, task)
  {
    var after := AnsweredOrdinal(r, task);
    CountOfImplied(r.dispatches, e => PlainNew(r, task, after, e), e => Spent(r, task, after, e));
  }

  lemma RetryKeeps(r: Run, spec: PhaseSpec, d: Dispatch, reading: Reading)
    requires RunOk(r) && NonePending(r) && spec == r.graph.phases[r.phaseKey]
    requires InPhase(ViewOf(r), d) && NoneOpen(r, d.task) && !Stored(r, reading.freshId)
    requires TaskAttempts(r, d.task) < spec.maximumAttempts
    ensures RunOk(Retry(r, spec, d, reading).run)
    ensures Retry(r, spec, d, reading).outcome == Retrying(NextAttempt(r, reading), reading.freshId)
  {
    var nd := Dispatch(reading.freshId, r.runId, d.task, NextAttempt(r, reading));
    var s := Retry(r, spec, d, reading).run;
    assert IsStored(r.dispatches, reading.freshId) <==> Stored(r, reading.freshId);
    TaskIsDeclared(r, d);
    NextIsFree(r, reading, d.task);
    hide InPhase, GraphOk, IdsOk, QuestionsOk, OrdinalsOk, Ceilings, OpenIsNewest, NamesStored, ExhaustedIsAccepted, AnsweredOrdinal,
         TaskAttempts, NextAttempt, FirstsInOrder, NonePending, Allowance;
    OpeningOpens(r, reading.freshId, d.task, NextAttempt(r, reading), Retrying(NextAttempt(r, reading), reading.freshId));
    NonePendingStays(r, s, nd);
    OwnedHere(r, d);
    RoomUnderCeiling(r, d.task);
    hide OwnersOk, Reached, NoneOpen;
    NoneOpenAt(r, d.task);
    OpeningKeeps(r, s, nd);
  }

  lemma OwnedHere(r: Run, d: Dispatch)
    requires InPhase(ViewOf(r), d)
    ensures d.runId == r.runId && d.task in r.graph.owner && r.graph.owner[d.task] == r.phaseKey
  {
  }

  lemma NoneOpenAt(r: Run, task: Id)
    requires NoneOpen(r, task)
    ensures forall i :: 0 <= i < |r.dispatches| && Mine(r, task, r.dispatches[i]) ==> !AttemptOpen(r, r.dispatches[i].id)
  {
  }

  // ----- first dispatches

  lemma {:induction false} PendingIsNoneTried(r: Run, tasks: seq<Coverage.Task>)
    ensures Pending(r, tasks, 0).None? <==> forall i :: 0 <= i < |tasks| ==> Tried(r, tasks[i].id)
  {
  }

  lemma UntriedHasNothing(r: Run, task: Id)
    requires !Tried(r, task)
    ensures NoneOpen(r, task) && forall i :: 0 <= i < |r.dispatches| ==> !Mine(r, task, r.dispatches[i])
    ensures AnsweredOrdinal(r, task) == 0
    ensures CountIf(r.dispatches, e => PlainNew(r, task, AnsweredOrdinal(r, task), e)) == 0
  {
    LastAnsweredIsAnOrdinal(r, r.dispatches, task);
    CountOfNone(r.dispatches, e => PlainNew(r, task, AnsweredOrdinal(r, task), e));
  }

  /** A first dispatch of a task nothing was dispatched for. */
  lemma FirstDispatchKeeps(r: Run, id: Id, task: Id, ordinal: nat)
    requires RunOk(r) && !Stored(r, id) && !Tried(r, task) && ordinal > 0
    requires task in r.graph.owner && r.graph.owner[task] == r.phaseKey
    requires forall i :: 0 <= i < |r.dispatches| && InPhase(ViewOf(r), r.dispatches[i]) ==> r.dispatches[i].ordinal != ordinal
    requires FirstsInOrder(r.(dispatches := r.dispatches + [Dispatch(id, r.runId, task, ordinal)]))
    ensures RunOk(DispatchAttempt(r, id, task, ordinal, Dispatched(id)).run)
    ensures DispatchAttempt(r, id, task, ordinal, Dispatched(id)).outcome == Dispatched(id)
  {
    hide RunOk, Stored, IsStored, Tried, InPhase, FirstsInOrder, Opens, HasRoom, NamesStored, OpenIsNewest, NoneOpen, AnsweredOrdinal,
         OtherOpen, CountIf, Allowance, AttemptOpen, QuestionsOk, OrdinalsOk, OwnersOk;
    var nd := Dispatch(id, r.runId, task, ordinal);
    var s := DispatchAttempt(r, id, task, ordinal, Dispatched(id)).run;
    PartsOfRunOk(r);
    PartsOfTurns(r);
    UntriedHasNothing(r, task);
    OpeningOpens(r, id, task, ordinal, Dispatched(id));
    FirstHasRoom(r, s, nd);
    FirstsIgnoreAttempts(r.(dispatches := r.dispatches + [nd]), s);
    OpeningKeeps(r, s, nd);
  }

  lemma FirstHasRoom(r: Run, s: Run, nd: Dispatch)
    requires s.carrying == r.carrying && s.undelivered == r.undelivered
    requires CountIf(r.dispatches, e => PlainNew(r, nd.task, AnsweredOrdinal(r, nd.task), e)) == 0
    ensures HasRoom(r, s, nd)
  {
    hide CountIf, AnsweredOrdinal, AnswersFor;
    assert Allowance(r.graph, nd.task) >= 1;
  }

  lemma FirstsIgnoreAttempts(r: Run, s: Run)
    requires s == r.(attempts := s.attempts) && FirstsInOrder(r)
    ensures FirstsInOrder(s)
  {
    if r.phaseKey in r.graph.phases {
      PendingDepends(r, s, r.graph.phases[r.phaseKey].tasks, 0);
      assert forall d :: InPhase(ViewOf(r), d) <==> InPhase(ViewOf(s), d);
    }
  }

  lemma PendingStepKeeps(r: Run, spec: PhaseSpec, at: nat, reading: Reading)
    requires RunOk(r) && spec == r.graph.phases[r.phaseKey] && spec.fanOut && Pending(r, spec.tasks, 0) == Some(at)
    requires !Stored(r, reading.freshId)
    ensures RunOk(PendingStep(r, spec, at, reading).run)
    ensures PendingStep(r, spec, at, reading).outcome in {Rejected, Dispatched(reading.freshId)}
  {
    hide IdsOk, QuestionsOk, OrdinalsOk, Ceilings, OpenIsNewest, NamesStored, ExhaustedIsAccepted, OwnersOk, StopsFast, DispatchAttempt,
         GraphOk, InPhase, AtItsPlace;
    var task := spec.tasks[at].id;
    MemberIsOwned(r.graph, r.phaseKey, at);
    if !StopsFast(r) {
      MemberKeepsFirsts(r, spec, at, reading);
      forall i | 0 <= i < |r.dispatches| && InPhase(ViewOf(r), r.dispatches[i]) ensures r.dispatches[i].ordinal != at + 1 {
        PlacesAreBefore(spec.tasks, at, r.dispatches[i]);
      }
      FirstDispatchKeeps(r, reading.freshId, task, at + 1);
    }
  }

  lemma MemberIsOwned(g: Graph, key: Key, at: nat)
    requires GraphOk(g) && key in g.phases && at < |g.phases[key].tasks|
    ensures g.phases[key].tasks[at].id in g.owner && g.owner[g.phases[key].tasks[at].id] == key
  {
    assert TasksOk(g, key);
  }

  lemma PlacesAreBefore(tasks: seq<Coverage.Task>, before: nat, d: Dispatch)
    requires AtItsPlace(tasks, before, d)
    ensures d.ordinal <= before
  {
  }

  lemma MemberKeepsFirsts(r: Run, spec: PhaseSpec, at: nat, reading: Reading)
    requires r.phaseKey in r.graph.phases && spec == r.graph.phases[r.phaseKey] && spec.fanOut && Pending(r, spec.tasks, 0) == Some(at)
    requires FirstsInOrder(r) && r.graph.phases[r.phaseKey] == spec
    ensures FirstsInOrder(r.(dispatches := r.dispatches + [Dispatch(reading.freshId, r.runId, spec.tasks[at].id, at + 1)]))
  {
    var nd := Dispatch(reading.freshId, r.runId, spec.tasks[at].id, at + 1);
    var s := r.(dispatches := r.dispatches + [nd]);
    var pending := Pending(s, spec.tasks, 0);
    forall i | 0 <= i <= at ensures Tried(s, spec.tasks[i].id) {
      TriedStays(r, s, nd, spec.tasks[i].id);
    }
    if pending.Some? {
      assert pending.value > at;
      forall i | 0 <= i < |s.dispatches| && InPhase(ViewOf(s), s.dispatches[i]) ensures AtItsPlace(spec.tasks, pending.value, s.dispatches[i]) {
        if i < |r.dispatches| {
          assert InPhase(ViewOf(r), r.dispatches[i]);
          assert AtItsPlace(spec.tasks, at, r.dispatches[i]);
        }
      }
    }
  }

  lemma FirstStepKeeps(r: Run, spec: PhaseSpec, reading: Reading)
    requires RunOk(r) && NonePending(r) && spec == r.graph.phases[r.phaseKey] && ReadingOk(r, reading)
    requires forall d :: d in r.dispatches ==> !InPhase(ViewOf(r), d)
    ensures RunOk(FirstStep(r, spec, reading).run)
    ensures FirstStep(r, spec, reading).outcome != Thrown(AttemptAlreadyOpen)
  {
    hide RunOk, DispatchAttempt, InPhase, Materialised, StaysAccepted, NewTasks;
    if spec.tasks != [] {
      FirstTaskIsUntried(r, spec);
      FirstLeavesNoneWaiting(r, spec, reading.freshId);
      FirstDispatchKeeps(r, reading.freshId, spec.tasks[0].id, 1);
    } else if spec.fanOut && reading.fanOut.Members? {
      MaterialisingKeeps(r, reading.fanOut.tasks);
    }
  }

  lemma FirstTaskIsUntried(r: Run, spec: PhaseSpec)
    requires RunOk(r) && NonePending(r) && spec == r.graph.phases[r.phaseKey] && spec.tasks != []
    requires forall d :: d in r.dispatches ==> !InPhase(ViewOf(r), d)
    ensures var task := spec.tasks[0].id;
            !Tried(r, task) && !spec.fanOut && task in r.graph.owner && r.graph.owner[task] == r.phaseKey
    ensures forall i :: 0 <= i < |r.dispatches| ==> !InPhase(ViewOf(r), r.dispatches[i])
  {
    hide IdsOk, QuestionsOk, OrdinalsOk, Ceilings, OpenIsNewest, NamesStored, ExhaustedIsAccepted, FirstsInOrder, Reached, OwnersOk;
    var task := spec.tasks[0].id;
    assert TasksOk(r.graph, r.phaseKey);
    forall i | 0 <= i < |r.dispatches| ensures !InPhase(ViewOf(r), r.dispatches[i]) { assert r.dispatches[i] in r.dispatches; }
    forall i | 0 <= i < |r.dispatches| ensures !Mine(r, task, r.dispatches[i]) {
      assert r.dispatches[i] in r.dispatches;
    }
    assert !Tried(r, task);
  }

  lemma FirstLeavesNoneWaiting(r: Run, spec: PhaseSpec, id: Id)
    requires r.phaseKey in r.graph.phases && spec == r.graph.phases[r.phaseKey] && !spec.fanOut && spec.tasks != []
    ensures FirstsInOrder(r.(dispatches := r.dispatches + [Dispatch(id, r.runId, spec.tasks[0].id, 1)]))
  {
  }

  // ----- the carried dispatch

  /** The carried dispatch is stored, of this phase, and on top of its task. */
  lemma CarriedIsOnTop(r: Run, d: Dispatch)
    requires Carried(ViewOf(r), r.dispatches) == Some(d)
    ensures d in Current(ViewOf(r), r.dispatches) && OnTop(ViewOf(r), r.dispatches, d)
  {
    CarriedMeans(ViewOf(r), r.dispatches);
    SelectedAreTheWinners(ViewOf(r), r.dispatches, d);
    WinnerIsOnTop(ViewOf(r), r.dispatches, d.task, d);
  }

  /** What every branch about the carried dispatch starts from. */
  ghost predicate Carrying(r: Run, spec: PhaseSpec, d: Dispatch, reading: Reading) {
    && Settled(r) && NonePending(r) && spec == r.graph.phases[r.phaseKey]
    && Carried(ViewOf(r), r.dispatches) == Some(d) && ReadingOk(r, reading)
  }

  lemma CarryingMeans(r: Run, spec: PhaseSpec, d: Dispatch, reading: Reading)
    requires Carrying(r, spec, d, reading)
    ensures RunOk(r) && NonePending(r) && spec == r.graph.phases[r.phaseKey] && !Stored(r, reading.freshId)
    ensures InPhase(ViewOf(r), d) && d in r.dispatches
    ensures !AttemptOpen(r, d.id) ==> NoneOpen(r, d.task)
    ensures TaskAccepted(r, d.task) ==> NoneOpen(r, d.task)
  {
    hide GraphOk, IdsOk, QuestionsOk, Ceilings, NamesStored, ExhaustedIsAccepted, FirstsInOrder, Carried, OnTop;
    CarriedIsOnTop(r, d);
    OnTopIsStored(r, d);
    if !AttemptOpen(r, d.id) {
      OpenIsCarried(r, d);
    }
  }

  lemma OnTopIsStored(r: Run, d: Dispatch)
    requires OnTop(ViewOf(r), r.dispatches, d)
    ensures InPhase(ViewOf(r), d) && d in r.dispatches
  {
  }

  lemma AbortKeeps(r: Run, spec: PhaseSpec, d: Dispatch, reading: Reading)
    requires Carrying(r, spec, d, reading) && TaskAttempts(r, d.task) < spec.maximumAttempts
    ensures RunOk(AbortStep(r, spec, d, reading).run)
    ensures AbortStep(r, spec, d, reading).outcome.Retrying?
  {
    hide RunOk, NonePending, Carrying, TaskAttempts, Retry, InPhase;
    CarryingMeans(r, spec, d, reading);
    if AttemptOpen(r, d.id) {
      var ended := r.(attempts := r.attempts[d.id := Attempt(d.task, Refused)]);
      AbandonedSettles(r, d);
      SettlingKeeps(r, ended.attempts);
      AbandonedIsSpent(r, d, ended);
      RetryKeeps(ended, spec, d, reading);
    } else {
      RetryKeeps(r, spec, d, reading);
    }
  }

  lemma AbandonedSettles(r: Run, d: Dispatch)
    requires d in r.dispatches && AttemptOpen(r, d.id)
    ensures Settles(r, r.attempts[d.id := Attempt(d.task, Refused)])
  {
    var i :| 0 <= i < |r.dispatches| && r.dispatches[i] == d;
    assert StoredFor(r.dispatches, d.id, d.task);
  }

  lemma AbandonedIsSpent(r: Run, d: Dispatch, ended: Run)
    requires ended == r.(attempts := r.attempts[d.id := Attempt(d.task, Refused)]) && AttemptOpen(r, d.id)
    requires RunOk(r) && NonePending(r) && InPhase(ViewOf(r), d) && d in r.dispatches
    ensures NonePending(ended) && InPhase(ViewOf(ended), d) && NoneOpen(ended, d.task)
    ensures TaskAttempts(ended, d.task) <= TaskAttempts(r, d.task)
  {
    hide RunOk, NoneOpen, OpenIsNewest, OrdinalsOk, NonePending, TaskAttempts;
    PartsOfTurns(r);
    AbandonedWasTheOnlyOne(r, d, ended);
    NonePendingSame(r, ended);
    AbandonedIsNotSuspended(r, d, ended);
    SpentShrinks(r, ended, d.task);
  }

  lemma PartsOfTurns(r: Run)
    requires RunOk(r)
    ensures OpenIsNewest(r) && OrdinalsOk(r) && OwnersOk(r)
  {
  }

  lemma AbandonedIsNotSuspended(r: Run, d: Dispatch, ended: Run)
    requires ended == r.(attempts := r.attempts[d.id := Attempt(d.task, Refused)]) && AttemptOpen(r, d.id)
    ensures forall i :: 0 <= i < |r.dispatches| && HasTurn(r, r.dispatches[i].id, Suspended) ==> HasTurn(ended, r.dispatches[i].id, Suspended)
    ensures forall e :: InPhase(ViewOf(r), e) ==> InPhase(ViewOf(ended), e)
  {
  }

  lemma AbandonedWasTheOnlyOne(r: Run, d: Dispatch, ended: Run)
    requires ended == r.(attempts := r.attempts[d.id := Attempt(d.task, Refused)]) && AttemptOpen(r, d.id)
    requires OpenIsNewest(r) && OrdinalsOk(r) && InPhase(ViewOf(r), d) && d in r.dispatches
    ensures NoneOpen(ended, d.task)
  {
    var k :| 0 <= k < |r.dispatches| && r.dispatches[k] == d;
    forall i | 0 <= i < |ended.dispatches| && Mine(ended, d.task, ended.dispatches[i]) ensures !AttemptOpen(ended, ended.dispatches[i].id) {
      var e := r.dispatches[i];
      assert AttemptOpen(r, e.id) ==> Newest(r, e);
      assert Newest(r, r.dispatches[k]);
      assert Mine(r, e.task, r.dispatches[k]) && Mine(r, d.task, r.dispatches[i]);
      assert SamePhase(r, r.dispatches[i], r.dispatches[k]) && SamePhase(r, r.dispatches[k], r.dispatches[i]);
    }
  }

  lemma SpentShrinks(r: Run, s: Run, task: Id)
    requires s == r.(attempts := s.attempts)
    requires forall i :: 0 <= i < |r.dispatches| && HasTurn(r, r.dispatches[i].id, Suspended) ==> HasTurn(s, r.dispatches[i].id, Suspended)
    ensures TaskAttempts(s, task) <= TaskAttempts(r, task)
  {
    AnsweredSame(r, s, task);
    var after := AnsweredOrdinal(r, task);
    CountOfImplied(r.dispatches, e => Spent(s, task, after, e), e => Spent(r, task, after, e));
  }

  lemma UnowedOfMore(first: Answer, rest: seq<Answer>, task: Id)
    ensures Unowed([first] + rest, task) == (if first.task == task then [] else [first]) + Unowed(rest, task)
  {
    var all := [first] + rest;
    assert all[0] == first && all[1..] == rest;
  }

  lemma OneAnswer(a: Answer, task: Id)
    ensures AnswersFor([a], task) == if a.task == task then 1 else 0
  {
    MoreAnswers([], a, task);
    assert [] + [a] == [a];
  }

  lemma NoAnswer(task: Id)
    ensures AnswersFor([], task) == 0
  {
  }

  lemma {:induction false} UnowedCount(answers: seq<Answer>, task: Id, other: Id)
    ensures AnswersFor(Unowed(answers, task), other) == if other == task then 0 else AnswersFor(answers, other)
  {
    NoAnswer(other);
    if answers != [] {
      hide AnswersFor, Unowed;
      var first, rest := answers[0], answers[1..];
      assert answers == [first] + rest;
      UnowedOfMore(first, rest, task);
      UnowedCount(rest, task, other);
      AnswersAdd([first], rest, other);
      AnswersAdd(if first.task == task then [] else [first], Unowed(rest, task), other);
      OneAnswer(first, other);
    }
  }

  lemma {:induction false} UnowedAreOwed(answers: seq<Answer>, task: Id)
    ensures forall i :: 0 <= i < |Unowed(answers, task)| ==> Unowed(answers, task)[i] in answers
  {
    if answers != [] {
      UnowedAreOwed(answers[1..], task);
      assert answers == [answers[0]] + answers[1..];
    }
  }

  lemma UnowedIsPaid(answers: seq<Answer>, task: Id)
    ensures forall i :: 0 <= i < |Unowed(answers, task)| ==> Unowed(answers, task)[i] in answers
    ensures forall other: Id :: AnswersFor(Unowed(answers, task), other) == if other == task then 0 else AnswersFor(answers, other)
  {
    UnowedAreOwed(answers, task);
    forall other: Id ensures AnswersFor(Unowed(answers, task), other) == if other == task then 0 else AnswersFor(answers, other) {
      UnowedCount(answers, task, other);
    }
  }

  lemma {:induction false} AnswersAdd(a: seq<Answer>, b: seq<Answer>, task: Id)
    ensures AnswersFor(a + b, task) == AnswersFor(a, task) + AnswersFor(b, task)
  {
    if b == [] {
      assert a + b == a;
    } else {
      assert (a + b)[..|a + b| - 1] == a + b[..|b| - 1];
      AnswersAdd(a, b[..|b| - 1], task);
    }
  }

  lemma OwingIsCounted(r: Run, task: Id)
    ensures Owes(r, task) <==> AnswersFor(r.undelivered, task) > 0
  {
    AnswersForSome(r.undelivered, task);
  }

  lemma AnswerFindsNoneOpen(r: Run, spec: PhaseSpec, d: Dispatch, reading: Reading)
    requires Carrying(r, spec, d, reading)
    requires OwesExhausted(r, d.task) || !TaskDone(r, d.task)
    requires !(!TaskDone(r, d.task) && d.id !in r.completions && AttemptOpen(r, d.id))
    ensures NoneOpen(r, d.task)
  {
    hide RunOk, NoneOpen, NonePending, InPhase, Carrying, TaskDone, OwesExhausted, TaskAccepted;
    CarryingMeans(r, spec, d, reading);
    if OwesExhausted(r, d.task) {
      OwedExhaustedIsAccepted(r, d.task);
    } else {
      CompletedIsDone(r, d);
    }
  }

  lemma OwedExhaustedIsAccepted(r: Run, task: Id)
    requires RunOk(r) && OwesExhausted(r, task)
    ensures TaskAccepted(r, task)
  {
    PartsOfAnswers(r);
    hide RunOk;
    var i :| 0 <= i < |r.undelivered| && r.undelivered[i].task == task && r.undelivered[i].submission.Exhausted?;
    var k :| 0 <= k < |r.answered| && r.answered[k] == r.undelivered[i];
  }

  lemma PartsOfAnswers(r: Run)
    requires RunOk(r)
    ensures QuestionsOk(r) && ExhaustedIsAccepted(r)
  {
  }

  lemma CompletedIsDone(r: Run, d: Dispatch)
    requires d in r.dispatches && !TaskDone(r, d.task)
    ensures d.id !in r.completions
  {
  }

  lemma AnswerMakes(r: Run, spec: PhaseSpec, d: Dispatch, reading: Reading, nd: Dispatch)
    requires spec.tasks != [] && RetryTask(spec, d.task) == d.task && (!spec.fanOut ==> spec.tasks[0].id == d.task)
    requires !OtherOpen(r, d.task, reading.freshId) && nd == Dispatch(reading.freshId, r.runId, d.task, NextAttempt(r, reading))
    ensures AnswerStep(r, spec, d, reading)
            == Stepped(r.(dispatches := r.dispatches + [nd], attempts := r.attempts[nd.id := Attempt(d.task, Opened)],
                          carrying := r.carrying + {nd.id}, undelivered := Unowed(r.undelivered, d.task)), Dispatched(nd.id))
  {
    hide RetryTask, NextAttempt, Unowed;
    SameOpen(r, r.(carrying := r.carrying + {nd.id}), d.task, nd.id);
    hide OtherOpen;
  }

  lemma SameOpen(r: Run, s: Run, task: Id, id: Id)
    requires s.attempts == r.attempts
    ensures OtherOpen(s, task, id) <==> OtherOpen(r, task, id)
  {
  }

  lemma AnswerOpens(r: Run, s: Run, nd: Dispatch)
    requires NamesStored(r) && nd.runId == r.runId && !IsStored(r.dispatches, nd.id) && Owes(r, nd.task)
    requires s == r.(dispatches := r.dispatches + [nd], attempts := r.attempts[nd.id := Attempt(nd.task, Opened)],
                     carrying := r.carrying + {nd.id}, undelivered := Unowed(r.undelivered, nd.task))
    ensures Opens(r, s, nd) && HasRoom(r, s, nd)
  {
    hide NamesStored, IsStored, Unowed, AnswersFor, Owes, Allowance, AnsweredOrdinal;
    FreshCarries(r, nd);
    UnowedIsPaid(r.undelivered, nd.task);
    OwingIsCounted(r, nd.task);
  }

  lemma AnswerKeeps(r: Run, spec: PhaseSpec, d: Dispatch, reading: Reading)
    requires Carrying(r, spec, d, reading) && Owes(r, d.task) && NoneOpen(r, d.task)
    ensures RunOk(AnswerStep(r, spec, d, reading).run)
    ensures AnswerStep(r, spec, d, reading).outcome == Dispatched(reading.freshId)
  {
    hide Carrying, RunOk, Owes, InPhase, NextAttempt, NonePending, RetryTask, Unowed, Stored, IsStored, NoneOpen, GraphOk, Reached, OwnersOk,
         NamesStored, OpenIsNewest, FirstsInOrder, Opens, HasRoom, AnswersFor, AnswerStep, OtherOpen, AnsweredOrdinal, AttemptOpen;
    var nd := Dispatch(reading.freshId, r.runId, d.task, NextAttempt(r, reading));
    var s := AnswerStep(r, spec, d, reading).run;
    CarryingMeans(r, spec, d, reading);
    PartsOfSelection(r);
    PartsOfRunOk(r);
    PartsOfTurns(r);
    OwnedHere(r, d);
    TaskIsDeclared(r, d);
    NextIsFree(r, reading, d.task);
    NoneOpenIsFree(r, d.task, reading.freshId);
    StoredMeans(r, reading.freshId);
    AnswerMakes(r, spec, d, reading, nd);
    AnswerOpens(r, s, nd);
    NonePendingStays(r, s, nd);
    NoneOpenAt(r, d.task);
    OpeningKeeps(r, s, nd);
  }

  lemma StoredMeans(r: Run, id: Id)
    ensures Stored(r, id) <==> IsStored(r.dispatches, id)
  {
  }

  lemma FreshCarries(r: Run, d: Dispatch)
    requires NamesStored(r) && !IsStored(r.dispatches, d.id)
    ensures r.carrying + {d.id} != r.carrying
  {
    assert d.id !in r.carrying;
  }

  // ----- waiting, gating, closing

  lemma StillOwedOfMore(questions: seq<Question>, first: Answer, rest: seq<Answer>, d: Dispatch)
    requires !RefusesDelivery(questions, first, d)
    ensures StillOwed(questions, [first] + rest, d) == (if first.task == d.task then [] else [first]) + StillOwed(questions, rest, d)
  {
    hide RefusesDelivery;
    var all := [first] + rest;
    assert all[0] == first && all[1..] == rest;
  }

  lemma StillOwedStops(questions: seq<Question>, answers: seq<Answer>, d: Dispatch)
    requires answers == [] || RefusesDelivery(questions, answers[0], d)
    ensures StillOwed(questions, answers, d) == answers
  {
    hide RefusesDelivery;
  }

  lemma {:induction false} StillOwedCount(questions: seq<Question>, answers: seq<Answer>, d: Dispatch, task: Id)
    ensures AnswersFor(StillOwed(questions, answers, d), task) <= AnswersFor(answers, task)
  {
    hide RefusesDelivery, StillOwed, AnswersFor;
    if answers == [] || RefusesDelivery(questions, answers[0], d) {
      StillOwedStops(questions, answers, d);
    } else {
      var first, rest := answers[0], answers[1..];
      assert answers == [first] + rest;
      StillOwedOfMore(questions, first, rest, d);
      StillOwedCount(questions, rest, d, task);
      AnswersAdd([first], rest, task);
      NoAnswer(task);
      AnswersAdd(if first.task == d.task then [] else [first], StillOwed(questions, rest, d), task);
    }
  }

  lemma {:induction false} StillOwedAreOwed(questions: seq<Question>, answers: seq<Answer>, d: Dispatch)
    ensures forall i :: 0 <= i < |StillOwed(questions, answers, d)| ==> StillOwed(questions, answers, d)[i] in answers
  {
    hide RefusesDelivery, StillOwed;
    if answers == [] || RefusesDelivery(questions, answers[0], d) {
      StillOwedStops(questions, answers, d);
    } else {
      var first, rest := answers[0], answers[1..];
      assert answers == [first] + rest;
      StillOwedOfMore(questions, first, rest, d);
      StillOwedAreOwed(questions, rest, d);
    }
  }

  lemma DeliveringOnlyRemoves(questions: seq<Question>, answers: seq<Answer>, d: Dispatch)
    ensures forall i :: 0 <= i < |StillOwed(questions, answers, d)| ==> StillOwed(questions, answers, d)[i] in answers
    ensures forall task: Id :: AnswersFor(StillOwed(questions, answers, d), task) <= AnswersFor(answers, task)
  {
    hide StillOwed, AnswersFor;
    StillOwedAreOwed(questions, answers, d);
    forall task: Id ensures AnswersFor(StillOwed(questions, answers, d), task) <= AnswersFor(answers, task) {
      StillOwedCount(questions, answers, d, task);
    }
  }

  /** The answers of the task before the first refused one are delivered, that one
      and everything after it are not. */
  lemma {:induction false} DeliveryStopsAtItsAsker(questions: seq<Question>, answers: seq<Answer>, d: Dispatch, k: nat)
    requires k <= |answers| && forall i :: 0 <= i < k ==> !RefusesDelivery(questions, answers[i], d)
    requires k < |answers| ==> RefusesDelivery(questions, answers[k], d)
    ensures StillOwed(questions, answers, d) == Unowed(answers[..k], d.task) + answers[k..]
  {
    hide RefusesDelivery, Unowed;
    if k == 0 {
      assert answers[..0] == [] && answers[0..] == answers;
      NoneUnowed(d.task, answers);
    } else {
      var rest := answers[1..];
      DeliveryStopsAtItsAsker(questions, rest, d, k - 1);
      TakeAfterFirst(answers, k);
      UnowedUnfolds(answers[..k], d.task, answers[k..]);
    }
  }

  lemma NoneUnowed(task: Id, tail: seq<Answer>)
    ensures Unowed([], task) + tail == tail
  {
  }

  lemma TakeAfterFirst(answers: seq<Answer>, k: nat)
    requires 0 < k <= |answers|
    ensures answers[..k] != [] && answers[..k][0] == answers[0] && answers[..k][1..] == answers[1..][..k - 1]
    ensures answers[k..] == answers[1..][k - 1..]
  {
  }

  lemma UnowedUnfolds(answers: seq<Answer>, task: Id, tail: seq<Answer>)
    requires answers != []
    ensures Unowed(answers, task) + tail == (if answers[0].task == task then [] else [answers[0]]) + (Unowed(answers[1..], task) + tail)
  {
  }

  lemma SettlingAccumulates(r: Run, d: Dispatch)
    requires NamesStored(r)
    ensures Accumulates(r, r.(undelivered := StillOwed(r.questions, r.undelivered, d)))
  {
    hide IsStored, StoredFor, StillOwed, AnswersFor;
    var s := r.(undelivered := StillOwed(r.questions, r.undelivered, d));
    DeliveringOnlyRemoves(r.questions, r.undelivered, d);
    forall i | 0 <= i < |r.accepted| ensures AcceptedIn(s.accepted, r.accepted[i].id) { }
  }

  lemma StaysCarrying(r: Run, s: Run, spec: PhaseSpec, d: Dispatch, reading: Reading)
    requires s == r.(undelivered := s.undelivered) && Carrying(r, spec, d, reading) && RunOk(s) && NonePending(s)
    ensures Carrying(s, spec, d, reading)
  {
    hide RunOk, NonePending, Carried;
    assert forall task :: TaskAccepted(s, task) <==> TaskAccepted(r, task);
    hide TaskAccepted;
    assert ViewOf(s) == ViewOf(r);
  }

  lemma SettlingAnswersKeeps(r: Run, spec: PhaseSpec, d: Dispatch, reading: Reading)
    requires Carrying(r, spec, d, reading)
    ensures Carrying(r.(undelivered := StillOwed(r.questions, r.undelivered, d)), spec, d, reading)
  {
    hide Carrying, RunOk, NonePending, Accumulates, StillOwed, InPhase, NoneOpen, NamesStored, QuestionsOk;
    var s := r.(undelivered := StillOwed(r.questions, r.undelivered, d));
    CarryingMeans(r, spec, d, reading);
    PartsOfRunOk(r);
    SettlingAccumulates(r, d);
    AccumulatingKeeps(r, s);
    NonePendingSame(r, s);
    StaysCarrying(r, s, spec, d, reading);
  }

  lemma PartsOfRunOk(r: Run)
    requires RunOk(r)
    ensures NamesStored(r) && QuestionsOk(r)
  {
  }

  lemma WorkKeeps(r: Run, spec: PhaseSpec, d: Dispatch, reading: Reading)
    requires Carrying(r, spec, d, reading)
    ensures RunOk(WorkStep(r, spec, d, reading).run)
    ensures WorkStep(r, spec, d, reading).outcome != Thrown(AttemptAlreadyOpen)
  {
    hide RunOk, NonePending, Carrying, TaskAttempts, Retry, InPhase, GateStep;
    CarryingMeans(r, spec, d, reading);
    if d.id in r.completions && d.id in r.published {
      GateKeeps(r, spec, d, reading);
    } else if !HasAsked(r, d.id) && AttemptOver(r, d.id) && TaskAttempts(r, d.task) < spec.maximumAttempts {
      RetryKeeps(r, spec, d, reading);
    }
  }

  /** The accepted tasks as the delivery left them. */
  lemma DeliveringKeeps(r: Run, spec: PhaseSpec, d: Dispatch, reading: Reading)
    requires Carrying(r, spec, d, reading)
    ensures var s := r.(accepted := reading.acceptedAfter); RunOk(s) && NonePending(s) && InPhase(ViewOf(s), d)
  {
    var s := r.(accepted := reading.acceptedAfter);
    CarryingMeans(r, spec, d, reading);
    PartsOfRunOk(r);
    hide RunOk, NonePending, Carried;
    AcceptingAccumulates(r, reading.acceptedAfter);
    hide Carrying;
    hide Accumulates;
    AccumulatingKeeps(r, s);
    NonePendingSame(r, s);
  }

  lemma NonePendingSame(r: Run, s: Run)
    requires NonePending(r) && SameDispatches(r, s)
    ensures NonePending(s)
  {
    forall task ensures Tried(s, task) <==> Tried(r, task) { }
  }

  lemma AcceptingAccumulates(r: Run, after: seq<Coverage.TaskRef>)
    requires NamesStored(r) && StaysAccepted(r, after)
    ensures Accumulates(r, r.(accepted := after))
  {
  }

  /** Every task of a covered phase is accepted, since none supersedes another. */
  lemma CoveredIsAccepted(r: Run, spec: PhaseSpec, d: Dispatch)
    requires GraphOk(r.graph) && Reached(r) && InPhase(ViewOf(r), d) && spec == r.graph.phases[r.phaseKey] && Covered(r, spec)
    ensures TaskAccepted(r, d.task)
  {
    hide Covered, GraphOk, InPhase;
    DeclaredAndActive(r, d);
    CoveredTask(r, spec, d.task);
    var ref :| ref in r.accepted && ref.id == d.task;
    var i :| 0 <= i < |r.accepted| && r.accepted[i] == ref;
    assert r.accepted[i].id == d.task;
  }

  lemma DeclaredAndActive(r: Run, d: Dispatch)
    requires GraphOk(r.graph) && r.phaseKey in r.graph.phases && InPhase(ViewOf(r), d)
    ensures var tasks := r.graph.phases[r.phaseKey].tasks; Declares(tasks, d.task) && !Coverage.Superseded(tasks, d.task)
  {
    assert Declares(r.graph.phases[r.graph.owner[d.task]].tasks, d.task);
    assert TasksOk(r.graph, r.phaseKey);
  }

  lemma CoveredTask(r: Run, spec: PhaseSpec, task: Id)
    requires Covered(r, spec) && Declares(spec.tasks, task) && !Coverage.Superseded(spec.tasks, task)
    ensures exists ref :: ref in r.accepted && ref.id == task
  {
    Coverage.CoveredPhaseIsAccepted(spec.tasks, r.accepted, r.graph.owner, r.phaseKey, task);
  }

  lemma GateKeeps(r: Run, spec: PhaseSpec, d: Dispatch, reading: Reading)
    requires Carrying(r, spec, d, reading) && d.id in r.completions
    ensures RunOk(GateStep(r, spec, d, reading).run)
    ensures GateStep(r, spec, d, reading).outcome != Thrown(AttemptAlreadyOpen)
  {
    hide RunOk, NonePending, Carrying, TaskAttempts, InPhase, Covered, RefusedStep, CloseStep;
    CarryingMeans(r, spec, d, reading);
    if !reading.publishRefused && !reading.deliveryFails {
      var s := r.(accepted := reading.acceptedAfter);
      DeliveringKeeps(r, spec, d, reading);
      CompletedIsOver(r, spec, d, reading);
      SameTries(r, s, d.task);
      NoneOpenStays(r, s, d.task);
      if Covered(s, spec) {
        PartsOfSelection(s);
        CoveredIsAccepted(s, spec, d);
        RefusedKeeps(s, TaskAttempts(r, d.task), spec, d, reading);
      }
      CloseKeeps(s, TaskAttempts(r, d.task), spec, d, reading);
    }
  }

  lemma PartsOfSelection(r: Run)
    requires RunOk(r)
    ensures GraphOk(r.graph) && Reached(r)
  {
  }

  lemma NoneOpenStays(r: Run, s: Run, task: Id)
    requires s == r.(accepted := s.accepted) && NoneOpen(r, task)
    ensures NoneOpen(s, task)
  {
  }

  lemma SameTries(r: Run, s: Run, task: Id)
    requires s == r.(accepted := s.accepted)
    ensures TaskAttempts(s, task) == TaskAttempts(r, task)
  {
    AnsweredSame(r, s, task);
    var after := AnsweredOrdinal(r, task);
    CountOfImplied(r.dispatches, e => Spent(s, task, after, e), e => Spent(r, task, after, e));
    CountOfImplied(r.dispatches, e => Spent(r, task, after, e), e => Spent(s, task, after, e));
  }

  lemma CompletedIsOver(r: Run, spec: PhaseSpec, d: Dispatch, reading: Reading)
    requires Carrying(r, spec, d, reading) && d.id in r.completions
    ensures NoneOpen(r, d.task)
  {
    CarryingMeans(r, spec, d, reading);
    hide RunOk, NonePending, NoneOpen;
    var i :| 0 <= i < |r.dispatches| && r.dispatches[i] == d;
    assert CompletedAreOver(r);
  }

  lemma RefusedKeeps(r: Run, tries: nat, spec: PhaseSpec, d: Dispatch, reading: Reading)
    requires RunOk(r) && NonePending(r) && InPhase(ViewOf(r), d) && d in r.dispatches && spec == r.graph.phases[r.phaseKey]
    requires NoneOpen(r, d.task) && !Stored(r, reading.freshId) && tries == TaskAttempts(r, d.task) && TaskAccepted(r, d.task)
    ensures RunOk(RefusedStep(r, tries, spec, d, reading).run)
    ensures RefusedStep(r, tries, spec, d, reading).outcome != Thrown(AttemptAlreadyOpen)
  {
    hide RunOk, NonePending, InPhase, NoneOpen, TaskAttempts, Retry, Outstanding;
    if spec.iterateOnGate && tries < spec.maximumAttempts {
      RetryKeeps(r, spec, d, reading);
    } else if spec.escalateOnExhaustion {
      var newest := NewestOf(r.dispatches, r.runId, d);
      var question := Question(newest.id, Exhausted(newest.id, tries));
      if question !in r.questions {
        OwnedHere(r, d);
        MayAskForHelp(r, d, newest, tries);
        AskingKeeps(r, question);
      }
    }
  }

  lemma MayAskForHelp(r: Run, d: Dispatch, newest: Dispatch, tries: nat)
    requires RunOk(r) && d in r.dispatches && newest == NewestOf(r.dispatches, r.runId, d) && TaskAccepted(r, d.task)
    requires d.runId == r.runId && Question(newest.id, Exhausted(newest.id, tries)) !in r.questions
    ensures MayAsk(r, Question(newest.id, Exhausted(newest.id, tries)))
  {
    PartsOfRunOk(r);
    assert IdsOk(r.dispatches);
    hide RunOk, QuestionsOk, IdsOk, TaskAccepted;
    var question := Question(newest.id, Exhausted(newest.id, tries));
    var k :| 0 <= k < |r.dispatches| && r.dispatches[k] == newest;
    assert IsStored(r.dispatches, newest.id);
    NotSubmittedBefore(r, question);
    forall j | 0 <= j < |r.dispatches| && AskedExhausted(question, r.dispatches[j]) ensures TaskAccepted(r, r.dispatches[j].task) {
      SameIdentity(r.dispatches, j, k);
    }
  }

  lemma NotSubmittedBefore(r: Run, question: Question)
    requires QuestionsOk(r) && question !in r.questions && question.submission.Exhausted?
    requires question.submission.dispatch == question.dispatch
    ensures !IsSubmitted(r.questions, question.submission)
  {
    forall i | 0 <= i < |r.questions| ensures r.questions[i].submission != question.submission {
      assert r.questions[i] in r.questions;
    }
  }

  lemma SameIdentity(ds: seq<Dispatch>, j: nat, k: nat)
    requires IdsOk(ds) && j < |ds| && k < |ds| && ds[j].id == ds[k].id
    ensures j == k
  {
  }

  lemma CloseKeeps(r: Run, tries: nat, spec: PhaseSpec, d: Dispatch, reading: Reading)
    requires RunOk(r) && NonePending(r) && InPhase(ViewOf(r), d) && d in r.dispatches && spec == r.graph.phases[r.phaseKey]
    requires NoneOpen(r, d.task) && !Stored(r, reading.freshId) && tries == TaskAttempts(r, d.task)
    ensures RunOk(CloseStep(r, tries, spec, d, reading).run)
    ensures CloseStep(r, tries, spec, d, reading).outcome != Thrown(AttemptAlreadyOpen)
  {
    hide RunOk, NonePending, InPhase, NoneOpen, TaskAttempts, Retry;
    if reading.close.RejectedByPerson? && spec.iterateOnApproval && tries < spec.maximumAttempts {
      RetryKeeps(r, spec, d, reading);
    }
    if reading.close.Completed? {
      ClosedKeeps(r);
      if NextKey(r).Some? {
        AdvancingKeeps(r, NextKey(r).value, false);
      }
    }
  }

  lemma ClosedKeeps(r: Run)
    requires RunOk(r)
    ensures RunOk(r.(closed := true))
  {
    var s := r.(closed := true);
    assert Accumulates(r, s) by {
      hide RunOk;
      assert NamesStored(r) by { PartsOfRunOk(r); }
      forall i | 0 <= i < |r.accepted| ensures AcceptedIn(s.accepted, r.accepted[i].id) { }
      forall i | 0 <= i < |s.undelivered| ensures s.undelivered[i] in r.undelivered { }
    }
    hide RunOk, Accumulates;
    AccumulatingKeeps(r, s);
  }

  // ----- one step

  lemma CarriedStepKeeps(r: Run, spec: PhaseSpec, d: Dispatch, reading: Reading)
    requires Carrying(r, spec, d, reading)
    ensures RunOk(CarriedStep(r, spec, d, reading).run)
    ensures CarriedStep(r, spec, d, reading).outcome != Thrown(AttemptAlreadyOpen)
  {
    hide Carrying, RunOk, TaskAttempts, AbortStep, AnswerStep, WorkStep, TaskDone, Owes, OwesExhausted, AnswersItsAsker, StillOwed;
    if d.id !in r.completions && d.id in r.aborts && TaskAttempts(r, d.task) < spec.maximumAttempts {
      AbortKeeps(r, spec, d, reading);
    } else if Owes(r, d.task) && (OwesExhausted(r, d.task) || !TaskDone(r, d.task))
              && !(!TaskDone(r, d.task) && d.id !in r.completions && AttemptOpen(r, d.id)) {
      AnswerFindsNoneOpen(r, spec, d, reading);
      AnswerKeeps(r, spec, d, reading);
    } else if Owes(r, d.task) && TaskDone(r, d.task) && !OwesExhausted(r, d.task) {
      var settled := r.(undelivered := StillOwed(r.questions, r.undelivered, d));
      SettlingAnswersKeeps(r, spec, d, reading);
      CarryingMeans(settled, spec, d, reading);
      WorkKeeps(settled, spec, d, reading);
    } else {
      WorkKeeps(r, spec, d, reading);
    }
  }

  lemma OpenStepKeeps(r: Run, reading: Reading)
    requires Settled(r) && ReadingOk(r, reading)
    ensures r.phaseKey in r.graph.phases
    ensures RunOk(OpenStep(r, r.graph.phases[r.phaseKey], reading).run)
    ensures OpenStep(r, r.graph.phases[r.phaseKey], reading).outcome != Thrown(AttemptAlreadyOpen)
  {
    assert r.phaseKey in r.graph.phases;
    var spec := r.graph.phases[r.phaseKey];
    hide RunOk, AcceptedAreOver, CompletedAreOver, PendingStep, FirstStep, CarriedStep;
    PendingIsNoneTried(r, spec.tasks);
    if spec.fanOut && Pending(r, spec.tasks, 0).Some? {
      PendingStepKeeps(r, spec, Pending(r, spec.tasks, 0).value, reading);
    } else {
      CarriedMeans(ViewOf(r), r.dispatches);
      assert NonePending(r);
      if Carried(ViewOf(r), r.dispatches).None? {
        FirstStepKeeps(r, spec, reading);
      } else {
        CarriedStepKeeps(r, spec, Carried(ViewOf(r), r.dispatches).value, reading);
      }
    }
  }

  lemma ClosingKeepsReading(r: Run, reading: Reading)
    requires ReadingOk(r, reading)
    ensures ReadingOk(CloseEnded(r), reading)
  {
    assert Stored(CloseEnded(r), reading.freshId) <==> Stored(r, reading.freshId);
  }

  /** One decision keeps every invariant, and the authority never has to refuse it
      a second open turn. */
  lemma StepKeepsOk(r: Run, reading: Reading)
    requires RunOk(r) && ReadingOk(r, reading)
    ensures RunOk(StepIn(r, reading).run)
    ensures StepIn(r, reading).outcome != Thrown(AttemptAlreadyOpen)
  {
    hide RunOk, CloseEnded, OpenStep, ReadingOk, AcceptedAreOver, CompletedAreOver, Settles;
    ClosingKeeps(r);
    ClosingKeepsReading(r, reading);
    OpenStepKeeps(CloseEnded(r), reading);
    ClosingSettles(r);
  }

  // ----- all events

  lemma FactsAccumulate(r: Run, s: Run)
    requires s == r.(completions := s.completions, published := s.published, returned := s.returned, aborts := s.aborts, overrides := s.overrides)
    requires forall id :: id in s.completions ==> IsStored(r.dispatches, id)
    ensures Accumulates(r, s)
  {
    hide IsStored;
    forall i | 0 <= i < |r.accepted| ensures AcceptedIn(s.accepted, r.accepted[i].id) { }
  }

  lemma ArrivalAccumulates(r: Run, e: Event)
    requires NamesStored(r) && EventOk(r, e) && (e.HandIn? || e.Publish? || e.Return? || e.AbortTurn? || e.Override?)
    ensures Accumulates(r, Apply(r, e))
  {
    hide Accumulates, StoredFor, IsStored, Stored, ReadingOk, StaysAccepted;
    if e.HandIn? { StoredMeans(r, e.dispatch); }
    FactsAccumulate(r, Apply(r, e));
  }

  lemma ArrivalKeeps(r: Run, e: Event)
    requires RunOk(r) && EventOk(r, e) && (e.HandIn? || e.Publish? || e.Return? || e.AbortTurn? || e.Accept? || e.Override?)
    ensures RunOk(Apply(r, e))
  {
    hide RunOk, Accumulates, NamesStored, QuestionsOk, StaysAccepted, Stored, ReadingOk;
    PartsOfRunOk(r);
    if e.Accept? {
      AcceptingAccumulates(r, e.accepted);
    } else {
      ArrivalAccumulates(r, e);
    }
    hide EventOk;
    AccumulatingKeeps(r, Apply(r, e));
  }

  lemma WorkerAskKeeps(r: Run, id: Id, name: Text)
    requires RunOk(r) && EventOk(r, Ask(id, name))
    ensures RunOk(Apply(r, Ask(id, name)))
  {
    hide RunOk;
    assert IsStored(r.dispatches, id) <==> Stored(r, id);
    assert MayAsk(r, Question(id, Asked(name)));
    AskingKeeps(r, Question(id, Asked(name)));
  }

  lemma EventKeepsOk(r: Run, e: Event)
    requires RunOk(r) && EventOk(r, e)
    ensures RunOk(Apply(r, e))
  {
    match e
    case Step(reading) => hide RunOk; StepKeepsOk(r, reading);
    case Ask(id, name) => hide RunOk; WorkerAskKeeps(r, id, name);
    case AnswerQuestion(q, task) => hide RunOk; AnsweringKeeps(r, q, task);
    case OtherRun(d) =>
      hide RunOk;
      assert IsStored(r.dispatches, d.id) <==> Stored(r, d.id);
      StrangerKeeps(r, d);
    case _ => hide RunOk; ArrivalKeeps(r, e);
  }

  lemma {:induction false} HistoryKeepsOk(r: Run, events: seq<Event>)
    requires RunOk(r) && History(r, events)
    ensures RunOk(After(r, events))
    decreases |events|
  {
    hide RunOk, Apply, EventOk;
    if events != [] {
      EventKeepsOk(r, events[0]);
      HistoryKeepsOk(Apply(r, events[0]), events[1..]);
    }
  }

  /** A run as instantiation leaves it: on some phase, with at most the first
      dispatch of that phase, whose attempt nobody recorded. */
  ghost predicate NewRun(r: Run) {
    && GraphOk(r.graph) && r.phaseKey in r.graph.phases
    && r.attempts == map[] && r.completions == map[] && r.questions == [] && r.answered == [] && r.undelivered == []
    && r.carrying == {} && IdsOk(r.dispatches)
    && (forall i, j :: 0 <= i < |r.dispatches| && 0 <= j < |r.dispatches| && r.dispatches[i].runId == r.runId == r.dispatches[j].runId ==> i == j)
    && (forall i :: 0 <= i < |r.dispatches| && r.dispatches[i].runId == r.runId ==>
          r.graph.phases[r.phaseKey].tasks != [] && r.dispatches[i].task == r.graph.phases[r.phaseKey].tasks[0].id
          && r.dispatches[i].ordinal == 1)
  }

  lemma NewRunIsOk(r: Run)
    requires NewRun(r)
    ensures RunOk(r)
  {
    NewRunRecords(r);
    NewRunTurns(r);
    NewRunFirsts(r);
    forall task: Id ensures Ceiling(r, task) { NewRunCeiling(r, task); }
    hide GraphOk, OwnersOk, NamesStored, QuestionsOk, OrdinalsOk, FirstsInOrder, Reached, OpenIsNewest, ExhaustedIsAccepted, IdsOk, Ceiling;
  }

  lemma NewRunRecords(r: Run)
    requires NewRun(r)
    ensures OwnersOk(r) && NamesStored(r) && QuestionsOk(r) && ExhaustedIsAccepted(r) && OpenIsNewest(r)
  {
    assert TasksOk(r.graph, r.phaseKey);
  }

  lemma NewRunTurns(r: Run)
    requires NewRun(r)
    ensures OrdinalsOk(r) && Reached(r)
  {
    assert TasksOk(r.graph, r.phaseKey);
  }

  lemma NewRunCounts(r: Run, task: Id)
    requires NewRun(r)
    ensures AnsweredOrdinal(r, task) == 0
    ensures CountIf(r.dispatches, d => PlainNew(r, task, 0, d)) <= 1
    ensures CountIf(r.dispatches, d => PlainOld(r, task, 0, d)) == 0
    ensures CountIf(r.dispatches, d => Carries(r, task, d)) == 0
  {
    hide GraphOk, IdsOk, CountIf;
    LastAnsweredIsAnOrdinal(r, r.dispatches, task);
    CountOfOne(r.dispatches, d => PlainNew(r, task, 0, d));
    CountOfNone(r.dispatches, d => PlainOld(r, task, 0, d));
    CountOfNone(r.dispatches, d => Carries(r, task, d));
  }

  lemma NewRunCeiling(r: Run, task: Id)
    requires NewRun(r)
    ensures Ceiling(r, task)
  {
    assert Allowance(r.graph, task) >= 1;
    hide GraphOk, IdsOk, Allowance, CountIf, AnsweredOrdinal;
    NewRunCounts(r, task);
  }

  lemma NewRunFirsts(r: Run)
    requires NewRun(r)
    ensures FirstsInOrder(r)
  {
    var tasks := r.graph.phases[r.phaseKey].tasks;
    var pending := Pending(r, tasks, 0);
    if pending.Some? {
      forall i | 0 <= i < |r.dispatches| && InPhase(ViewOf(r), r.dispatches[i]) ensures AtItsPlace(tasks, pending.value, r.dispatches[i]) {
        assert Mine(r, tasks[0].id, r.dispatches[i]);
        assert Tried(r, tasks[0].id);
        assert tasks[0].id == r.dispatches[i].task;
      }
    }
  }

  lemma {:induction false} CountOfOne(ds: seq<Dispatch>, p: Dispatch -> bool)
    requires forall i, j :: 0 <= i < |ds| && 0 <= j < |ds| && p(ds[i]) && p(ds[j]) ==> i == j
    ensures CountIf(ds, p) <= 1
  {
    if ds != [] {
      var front := ds[..|ds| - 1];
      if p(ds[|ds| - 1]) {
        CountOfNone(front, p);
      } else {
        CountOfOne(front, p);
      }
    }
  }
}
