/** Whether the accepted tasks of a phase are exactly the tasks it still owns. */
module TaskCoverage {
  import opened CodeUnits

  datatype Task = Task(id: Text, supersedes: seq<Text>)

  datatype TaskRef = TaskRef(id: Text, generation: nat)

  predicate Superseded(tasks: seq<Task>, id: Text) { exists i :: 0 <= i < |tasks| && id in tasks[i].supersedes }

  /** The ids nothing supersedes, as listed. `all` stays while `tasks` shrinks. */
  function Unsuperseded(all: seq<Task>, tasks: seq<Task>): seq<Text> {
    if tasks == [] then []
    else (if Superseded(all, tasks[0].id) then [] else [tasks[0].id]) + Unsuperseded(all, tasks[1..])
  }

  function ActivePhaseTaskIds(tasks: seq<Task>): seq<Text> { Sorted(Unsuperseded(tasks, tasks)) }

  function InPhase(accepted: seq<TaskRef>, owner: map<Text, string>, phaseKey: string): seq<TaskRef> {
    if accepted == [] then []
    else
      var rest := InPhase(accepted[1..], owner, phaseKey);
      if accepted[0].id in owner && owner[accepted[0].id] == phaseKey then [accepted[0]] + rest else rest
  }

  function InsertedRef(x: TaskRef, sorted: seq<TaskRef>): seq<TaskRef> {
    if sorted == [] || Before(x.id, sorted[0].id) then [x] + sorted else [sorted[0]] + InsertedRef(x, sorted[1..])
  }

  function SortedRefs(s: seq<TaskRef>): seq<TaskRef> {
    if s == [] then [] else InsertedRef(s[|s| - 1], SortedRefs(s[..|s| - 1]))
  }

  function AcceptedPhaseTasks(accepted: seq<TaskRef>, owner: map<Text, string>, phaseKey: string): seq<TaskRef> {
    SortedRefs(InPhase(accepted, owner, phaseKey))
  }

  /** The lengths agree and so does every position. */
  predicate CoversEveryActiveTask(active: seq<Text>, tasks: seq<TaskRef>) {
    |tasks| == |active| && forall i :: 0 <= i < |active| ==> tasks[i].id == active[i]
  }

  function Ids(refs: seq<TaskRef>): (ids: seq<Text>)
    ensures |ids| == |refs| && forall i :: 0 <= i < |ids| ==> ids[i] == refs[i].id
  {
    seq(|refs|, i requires 0 <= i < |refs| => refs[i].id)
  }

  // ----- proofs

  lemma {:induction false} InsertedRefIds(x: TaskRef, sorted: seq<TaskRef>)
    ensures Ids(InsertedRef(x, sorted)) == Inserted(x.id, Ids(sorted))
  {
    if sorted != [] && !Before(x.id, sorted[0].id) {
      InsertedRefIds(x, sorted[1..]);
      assert Ids(sorted)[1..] == Ids(sorted[1..]);
    }
  }

  lemma {:induction false} SortedRefsIds(s: seq<TaskRef>)
    ensures Ids(SortedRefs(s)) == Sorted(Ids(s))
  {
    if s != [] {
      SortedRefsIds(s[..|s| - 1]);
      InsertedRefIds(s[|s| - 1], SortedRefs(s[..|s| - 1]));
      assert Ids(s)[..|s| - 1] == Ids(s[..|s| - 1]);
    }
  }

  /** Comparing the two sorted lists position by position decides whether the
      accepted tasks of the phase are its unsuperseded tasks, each as often. */
  lemma CoverageComparesTaskSets(tasks: seq<Task>, accepted: seq<TaskRef>, owner: map<Text, string>, phaseKey: string)
    ensures CoversEveryActiveTask(ActivePhaseTaskIds(tasks), AcceptedPhaseTasks(accepted, owner, phaseKey))
            <==> multiset(Ids(InPhase(accepted, owner, phaseKey))) == multiset(Unsuperseded(tasks, tasks))
  {
    var refs := AcceptedPhaseTasks(accepted, owner, phaseKey);
    var active := ActivePhaseTaskIds(tasks);
    SortedRefsIds(InPhase(accepted, owner, phaseKey));
    SortedComparesContents(Ids(InPhase(accepted, owner, phaseKey)), Unsuperseded(tasks, tasks));
    assert CoversEveryActiveTask(active, refs) <==> Ids(refs) == active;
  }

  lemma {:induction false} UnsupersededMembers(all: seq<Task>, tasks: seq<Task>, id: Text)
    ensures id in Unsuperseded(all, tasks) <==> !Superseded(all, id) && exists i :: 0 <= i < |tasks| && tasks[i].id == id
  {
    if tasks != [] {
      UnsupersededMembers(all, tasks[1..], id);
      assert tasks == [tasks[0]] + tasks[1..];
      assert forall i :: 0 <= i < |tasks[1..]| ==> tasks[1..][i] == tasks[i + 1];
    }
  }

  lemma {:induction false} InPhaseMembers(accepted: seq<TaskRef>, owner: map<Text, string>, phaseKey: string, r: TaskRef)
    ensures r in InPhase(accepted, owner, phaseKey) <==> r in accepted && r.id in owner && owner[r.id] == phaseKey
  {
    if accepted != [] {
      assert accepted == [accepted[0]] + accepted[1..];
      InPhaseMembers(accepted[1..], owner, phaseKey, r);
    }
  }

  /** So a covered phase has an acceptance for every task nothing supersedes and
      for no other task of the phase. */
  lemma CoveredPhaseIsAccepted(tasks: seq<Task>, accepted: seq<TaskRef>, owner: map<Text, string>, phaseKey: string, id: Text)
    requires CoversEveryActiveTask(ActivePhaseTaskIds(tasks), AcceptedPhaseTasks(accepted, owner, phaseKey))
    ensures (exists r :: r in accepted && r.id == id && id in owner && owner[id] == phaseKey)
            <==> (!Superseded(tasks, id) && exists i :: 0 <= i < |tasks| && tasks[i].id == id)
  {
    CoverageComparesTaskSets(tasks, accepted, owner, phaseKey);
    var refs := InPhase(accepted, owner, phaseKey);
    UnsupersededMembers(tasks, tasks, id);
    assert id in multiset(Ids(refs)) <==> id in multiset(Unsuperseded(tasks, tasks));
    if r :| r in accepted && r.id == id && id in owner && owner[id] == phaseKey {
      InPhaseMembers(accepted, owner, phaseKey, r);
      var i :| 0 <= i < |refs| && refs[i] == r;
      assert Ids(refs)[i] == id;
    }
    if id in Ids(refs) {
      var i :| 0 <= i < |refs| && Ids(refs)[i] == id;
      InPhaseMembers(accepted, owner, phaseKey, refs[i]);
      assert refs[i] in accepted;
    }
  }
}
