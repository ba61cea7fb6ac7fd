/** What every history of a run keeps, and the primitive changes that keep it. */
module RunDriverInvariants {
  import opened CodeUnits
  import opened Options
  import opened DispatchSelection
  import opened RunDriverModel
  import Coverage = TaskCoverage
  import PhaseWalk

  // ----- the workflow

  ghost predicate TasksOk(g: Graph, key: Key)
    requires key in g.phases
  {
    var tasks := g.phases[key].tasks;
    && (forall i :: 0 <= i < |tasks| ==> tasks[i].id in g.owner && g.owner[tasks[i].id] == key)
    && (forall i, j :: 0 <= i < j < |tasks| ==> tasks[i].id != tasks[j].id)
    && (forall i :: 0 <= i < |tasks| ==> tasks[i].supersedes == [])
    && (!g.phases[key].fanOut ==> |tasks| <= 1)
  }

  /** Every phase other than a fan-out owns at most one task, task identities are
      the workflow's own, and no task supersedes another: only amendments do that. */
  ghost predicate GraphOk(g: Graph) {
    && PhaseWalk.Distinct(g.order)
    && (forall key :: key in g.phases <==> key in g.order)
    && (forall key :: key in g.phases ==> TasksOk(g, key))
    && forall task :: task in g.owner ==> g.owner[task] in g.phases && Declares(g.phases[g.owner[task]].tasks, task)
  }

  // ----- the records

  ghost predicate IdsOk(ds: seq<Dispatch>) { forall i, j :: 0 <= i < j < |ds| ==> ds[i].id != ds[j].id }

  ghost predicate IsStored(ds: seq<Dispatch>, id: Id) { exists i :: 0 <= i < |ds| && ds[i].id == id }

  ghost predicate StoredFor(ds: seq<Dispatch>, id: Id, task: Id) { exists i :: 0 <= i < |ds| && ds[i].id == id && ds[i].task == task }

  ghost predicate NamesStored(r: Run) {
    && (forall id :: id in r.attempts ==> StoredFor(r.dispatches, id, r.attempts[id].task))
    && (forall id :: id in r.completions ==> IsStored(r.dispatches, id))
    && (forall i :: 0 <= i < |r.questions| ==> IsStored(r.dispatches, r.questions[i].dispatch))
    && forall id :: id in r.carrying ==> IsStored(r.dispatches, id)
  }

  ghost predicate OwnersOk(r: Run) {
    forall i :: 0 <= i < |r.dispatches| && r.dispatches[i].runId == r.runId ==> r.dispatches[i].task in r.graph.owner
  }

  ghost predicate IsSubmitted(questions: seq<Question>, submission: SubmissionId) {
    exists i :: 0 <= i < |questions| && questions[i].submission == submission
  }

  ghost predicate QuestionsOk(r: Run) {
    && (forall i :: 0 <= i < |r.questions| && r.questions[i].submission.Exhausted? ==>
          r.questions[i].submission.dispatch == r.questions[i].dispatch)
    && (forall i :: 0 <= i < |r.answered| ==> IsSubmitted(r.questions, r.answered[i].submission))
    && forall i :: 0 <= i < |r.undelivered| ==> r.undelivered[i] in r.answered
  }

  // ----- ordinals

  ghost predicate SamePhase(r: Run, d: Dispatch, e: Dispatch) {
    d.runId == r.runId == e.runId && d.task in r.graph.owner && e.task in r.graph.owner && r.graph.owner[d.task] == r.graph.owner[e.task]
  }

  /** No two dispatches of one phase share an ordinal. */
  ghost predicate OrdinalsOk(r: Run) {
    forall i, j :: 0 <= i < j < |r.dispatches| && SamePhase(r, r.dispatches[i], r.dispatches[j]) ==>
      r.dispatches[i].ordinal != r.dispatches[j].ordinal
  }

  ghost predicate AtItsPlace(tasks: seq<Coverage.Task>, before: nat, d: Dispatch) {
    exists m :: 0 <= m < before && m < |tasks| && tasks[m].id == d.task && d.ordinal == m + 1
  }

  /** While a member waits for its first dispatch, the phase holds the first
      dispatches of the members before it, numbered from one. */
  ghost predicate FirstsInOrder(r: Run) {
    r.phaseKey in r.graph.phases && r.graph.phases[r.phaseKey].fanOut ==>
      var tasks := r.graph.phases[r.phaseKey].tasks;
      var pending := Pending(r, tasks, 0);
      pending.Some? ==>
        forall i :: 0 <= i < |r.dispatches| && InPhase(ViewOf(r), r.dispatches[i]) ==>
          AtItsPlace(tasks, pending.value, r.dispatches[i])
  }

  function Rank(g: Graph, key: Key): int { PhaseWalk.IndexOf(g.order, key) }

  /** The run has dispatched nothing of a phase it has not reached. */
  ghost predicate Reached(r: Run) {
    && r.phaseKey in r.graph.phases
    && forall i :: 0 <= i < |r.dispatches| && r.dispatches[i].runId == r.runId && r.dispatches[i].task in r.graph.owner ==>
         Rank(r.graph, r.graph.owner[r.dispatches[i].task]) <= Rank(r.graph, r.phaseKey)
  }

  // ----- turns

  ghost predicate Newest(r: Run, d: Dispatch) {
    d.runId == r.runId && forall j :: 0 <= j < |r.dispatches| && Mine(r, d.task, r.dispatches[j]) ==> r.dispatches[j].ordinal <= d.ordinal
  }

  /** An open turn is its task's newest dispatch; so a task has at most one. */
  ghost predicate OpenIsNewest(r: Run) {
    forall i :: 0 <= i < |r.dispatches| && AttemptOpen(r, r.dispatches[i].id) ==> Newest(r, r.dispatches[i])
  }

  ghost predicate TaskAccepted(r: Run, task: Id) { AcceptedIn(r.accepted, task) }

  predicate AskedExhausted(q: Question, d: Dispatch) { q.submission.Exhausted? && q.dispatch == d.id }

  /** Only a member whose work was accepted has asked because it ran out of tries. */
  ghost predicate ExhaustedIsAccepted(r: Run) {
    && (forall i, j :: 0 <= i < |r.questions| && 0 <= j < |r.dispatches| && AskedExhausted(r.questions[i], r.dispatches[j]) ==>
          TaskAccepted(r, r.dispatches[j].task))
    && forall i :: 0 <= i < |r.answered| && r.answered[i].submission.Exhausted? ==> TaskAccepted(r, r.answered[i].task)
  }

  // ----- ceilings

  function AnswersFor(answers: seq<Answer>, task: Id): nat {
    if answers == [] then 0 else AnswersFor(answers[..|answers| - 1], task) + (if answers[|answers| - 1].task == task then 1 else 0)
  }

  /** The declared ceiling; a first dispatch is made even under a ceiling of zero. */
  function Allowance(g: Graph, task: Id): nat {
    if task in g.owner && g.owner[task] in g.phases && g.phases[g.owner[task]].maximumAttempts > 1
    then g.phases[g.owner[task]].maximumAttempts else 1
  }

  predicate NotSuspended(r: Run, task: Id, d: Dispatch) { Mine(r, task, d) && !HasTurn(r, d.id, Suspended) }

  predicate PlainNew(r: Run, task: Id, after: nat, d: Dispatch) {
    NotSuspended(r, task, d) && d.id !in r.carrying && d.ordinal > after
  }

  predicate PlainOld(r: Run, task: Id, after: nat, d: Dispatch) {
    NotSuspended(r, task, d) && d.id !in r.carrying && d.ordinal <= after
  }

  predicate Carries(r: Run, task: Id, d: Dispatch) { Mine(r, task, d) && d.id in r.carrying }

  /** Since the last answer a task made at most its allowance of dispatches that
      carry none; before it, at most that for each answer; and each dispatch that
      carries an answer was paid for by one. */
  ghost predicate Ceiling(r: Run, task: Id) {
    var after := AnsweredOrdinal(r, task);
    && CountIf(r.dispatches, d => PlainNew(r, task, after, d)) <= Allowance(r.graph, task)
    && CountIf(r.dispatches, d => PlainOld(r, task, after, d)) <= Allowance(r.graph, task) * AnswersFor(r.answered, task)
    && CountIf(r.dispatches, d => Carries(r, task, d)) + AnswersFor(r.undelivered, task) <= AnswersFor(r.answered, task)
  }

  ghost predicate Ceilings(r: Run) { forall task: Id {:trigger Ceiling(r, task)} :: Ceiling(r, task) }

  ghost predicate RunOk(r: Run) {
    && GraphOk(r.graph) && IdsOk(r.dispatches) && NamesStored(r) && OwnersOk(r) && QuestionsOk(r)
    && OrdinalsOk(r) && FirstsInOrder(r) && Reached(r)
    && OpenIsNewest(r) && ExhaustedIsAccepted(r) && Ceilings(r)
  }

  // ----- counting

  lemma {:induction false} CountOfImplied(ds: seq<Dispatch>, p: Dispatch -> bool, q: Dispatch -> bool)
    requires forall i :: 0 <= i < |ds| && p(ds[i]) ==> q(ds[i])
    ensures CountIf(ds, p) <= CountIf(ds, q)
  {
    if ds != [] {
      CountOfImplied(ds[..|ds| - 1], p, q);
    }
  }

  lemma {:induction false} CountOfEither(ds: seq<Dispatch>, p: Dispatch -> bool, q: Dispatch -> bool, s: Dispatch -> bool)
    requires forall i :: 0 <= i < |ds| && p(ds[i]) ==> q(ds[i]) || s(ds[i])
    ensures CountIf(ds, p) <= CountIf(ds, q) + CountIf(ds, s)
  {
    if ds != [] {
      CountOfEither(ds[..|ds| - 1], p, q, s);
    }
  }

  lemma {:induction false} CountOfNone(ds: seq<Dispatch>, p: Dispatch -> bool)
    requires forall i :: 0 <= i < |ds| ==> !p(ds[i])
    ensures CountIf(ds, p) == 0
  {
    if ds != [] {
      CountOfNone(ds[..|ds| - 1], p);
    }
  }

  lemma CountOfMore(ds: seq<Dispatch>, d: Dispatch, p: Dispatch -> bool, q: Dispatch -> bool)
    requires forall i :: 0 <= i < |ds| && p(ds[i]) ==> q(ds[i])
    ensures CountIf(ds + [d], p) <= CountIf(ds, q) + (if p(d) then 1 else 0)
  {
    assert (ds + [d])[..|ds|] == ds;
    CountOfImplied(ds, p, q);
  }

  lemma {:induction false} LastAnsweredDepends(r: Run, s: Run, ds: seq<Dispatch>, task: Id)
    requires r.runId == s.runId
    requires forall i :: 0 <= i < |ds| && Mine(r, task, ds[i]) ==> (WasAnswered(r, ds[i]) <==> WasAnswered(s, ds[i]))
    ensures LastAnswered(r, ds, task) == LastAnswered(s, ds, task)
  {
    if ds != [] {
      LastAnsweredDepends(r, s, ds[..|ds| - 1], task);
    }
  }

  lemma {:induction false} LastAnsweredGrows(r: Run, s: Run, ds: seq<Dispatch>, task: Id)
    requires r.runId == s.runId
    requires forall i :: 0 <= i < |ds| && Mine(r, task, ds[i]) && WasAnswered(r, ds[i]) ==> WasAnswered(s, ds[i])
    ensures LastAnswered(r, ds, task) <= LastAnswered(s, ds, task)
  {
    if ds != [] {
      LastAnsweredGrows(r, s, ds[..|ds| - 1], task);
    }
  }

  lemma {:induction false} LastAnsweredIsAnOrdinal(r: Run, ds: seq<Dispatch>, task: Id)
    ensures LastAnswered(r, ds, task) == 0
            || exists i :: 0 <= i < |ds| && Mine(r, task, ds[i]) && WasAnswered(r, ds[i]) && ds[i].ordinal == LastAnswered(r, ds, task)
  {
    if ds != [] {
      var n := |ds| - 1;
      LastAnsweredIsAnOrdinal(r, ds[..n], task);
      if LastAnswered(r, ds, task) != 0 && LastAnswered(r, ds, task) == LastAnswered(r, ds[..n], task) {
        var i :| 0 <= i < n && Mine(r, task, ds[..n][i]) && WasAnswered(r, ds[..n][i]) && ds[..n][i].ordinal == LastAnswered(r, ds[..n], task);
        assert ds[i] == ds[..n][i];
      }
    }
  }

  lemma {:induction false} HighestIsHighest(v: View, ds: seq<Dispatch>)
    ensures forall i :: 0 <= i < |ds| && InPhase(v, ds[i]) ==> ds[i].ordinal <= HighestOrdinal(v, ds)
  {
    if ds != [] {
      HighestIsHighest(v, ds[..|ds| - 1]);
      assert ds == ds[..|ds| - 1] + [ds[|ds| - 1]];
    }
  }
}
