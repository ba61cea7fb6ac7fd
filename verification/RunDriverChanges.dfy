/** The primitive changes of a run's records, each of which keeps the invariant:
    turns that end, a dispatch that opens, and records that arrive from outside. */
module RunDriverChanges {
  import opened CodeUnits
  import opened Options
  import opened DispatchSelection
  import opened RunDriverModel
  import opened RunDriverInvariants
  import Coverage = TaskCoverage

  // ----- invariants that look only at part of the records

  lemma {:induction false} PendingDepends(r: Run, s: Run, tasks: seq<Coverage.Task>, from: nat)
    requires r.dispatches == s.dispatches && r.runId == s.runId && from <= |tasks|
    ensures Pending(r, tasks, from) == Pending(s, tasks, from)
    decreases |tasks| - from
  {
    if from < |tasks| {
      assert Tried(r, tasks[from].id) <==> Tried(s, tasks[from].id);
      PendingDepends(r, s, tasks, from + 1);
    }
  }

  /** The dispatches, the workflow and the current phase are the same. */
  ghost predicate SameDispatches(r: Run, s: Run) {
    s.runId == r.runId && s.graph == r.graph && s.phaseKey == r.phaseKey && s.dispatches == r.dispatches
  }

  lemma SameOrdinals(r: Run, s: Run)
    requires SameDispatches(r, s) && OrdinalsOk(r) && FirstsInOrder(r) && Reached(r)
    ensures OrdinalsOk(s) && FirstsInOrder(s) && Reached(s)
  {
    assert OrdinalsOk(s) by {
      hide FirstsInOrder, Reached;
      forall i, j | 0 <= i < j < |s.dispatches| && SamePhase(s, s.dispatches[i], s.dispatches[j])
        ensures s.dispatches[i].ordinal != s.dispatches[j].ordinal
      {
        assert SamePhase(r, r.dispatches[i], r.dispatches[j]);
      }
    }
    assert FirstsInOrder(s) by {
      hide OrdinalsOk, Reached;
      if r.graph.phases[r.phaseKey].fanOut {
        PendingDepends(r, s, r.graph.phases[r.phaseKey].tasks, 0);
        assert forall d :: InPhase(ViewOf(r), d) <==> InPhase(ViewOf(s), d);
      }
    }
  }

  lemma CeilingFollows(r: Run, s: Run, task: Id)
    requires SameDispatches(r, s) && s.carrying == r.carrying && s.answered == r.answered
    requires AnsweredOrdinal(s, task) == AnsweredOrdinal(r, task)
    requires AnswersFor(s.undelivered, task) <= AnswersFor(r.undelivered, task)
    requires forall i :: 0 <= i < |r.dispatches| && NotSuspended(s, task, r.dispatches[i]) ==> NotSuspended(r, task, r.dispatches[i])
    requires Ceiling(r, task)
    ensures Ceiling(s, task)
  {
    hide NotSuspended, AnsweredOrdinal, CountIf;
    var after := AnsweredOrdinal(r, task);
    CountOfImplied(r.dispatches, d => PlainNew(s, task, after, d), d => PlainNew(r, task, after, d));
    CountOfImplied(r.dispatches, d => PlainOld(s, task, after, d), d => PlainOld(r, task, after, d));
    CountOfImplied(r.dispatches, d => Carries(s, task, d), d => Carries(r, task, d));
  }

  lemma AnsweredSame(r: Run, s: Run, task: Id)
    requires s.runId == r.runId && s.dispatches == r.dispatches && s.questions == r.questions && s.answered == r.answered
    ensures AnsweredOrdinal(s, task) == AnsweredOrdinal(r, task)
  {
    forall i | 0 <= i < |r.dispatches| ensures WasAnswered(r, r.dispatches[i]) <==> WasAnswered(s, r.dispatches[i]) { }
    LastAnsweredDepends(r, s, r.dispatches, task);
  }

  // ----- turns that end

  /** Recorded endings stay; anything else may become an ending. */
  ghost predicate Settles(r: Run, attempts: map<Id, Attempt>) {
    && (forall id :: id in r.attempts ==> id in attempts)
    && forall id :: id in attempts ==>
         (id in r.attempts && attempts[id] == r.attempts[id])
         || (!AttemptOver(r, id) && attempts[id].disposition != Opened && StoredFor(r.dispatches, id, attempts[id].task))
  }

  lemma SettlingKeepsTurns(r: Run, attempts: map<Id, Attempt>)
    requires Settles(r, attempts) && OpenIsNewest(r)
    ensures OpenIsNewest(r.(attempts := attempts))
  {
    var s := r.(attempts := attempts);
    forall i | 0 <= i < |s.dispatches| && AttemptOpen(s, s.dispatches[i].id) ensures Newest(s, s.dispatches[i]) {
      assert AttemptOpen(r, r.dispatches[i].id);
      assert Newest(r, r.dispatches[i]);
    }
  }

  lemma SettlingKeepsRecords(r: Run, attempts: map<Id, Attempt>)
    requires Settles(r, attempts) && NamesStored(r) && OwnersOk(r) && QuestionsOk(r) && ExhaustedIsAccepted(r)
    ensures NamesStored(r.(attempts := attempts)) && OwnersOk(r.(attempts := attempts))
    ensures QuestionsOk(r.(attempts := attempts)) && ExhaustedIsAccepted(r.(attempts := attempts))
  {
    var s := r.(attempts := attempts);
    forall task ensures TaskAccepted(r, task) <==> TaskAccepted(s, task) { }
  }

  lemma SettlingKeepsCeilings(r: Run, attempts: map<Id, Attempt>)
    requires Settles(r, attempts) && Ceilings(r)
    ensures Ceilings(r.(attempts := attempts))
  {
    hide Ceiling;
    var s := r.(attempts := attempts);
    forall task: Id ensures Ceiling(s, task) {
      assert Ceiling(r, task);
      AnsweredSame(r, s, task);
      CeilingFollows(r, s, task);
    }
  }

  lemma SettlingKeeps(r: Run, attempts: map<Id, Attempt>)
    requires RunOk(r) && Settles(r, attempts)
    ensures RunOk(r.(attempts := attempts))
  {
    hide Settles, OrdinalsOk, FirstsInOrder, Reached, Ceilings, GraphOk, OpenIsNewest, NamesStored, OwnersOk, QuestionsOk, ExhaustedIsAccepted, IdsOk;
    SettlingKeepsRecords(r, attempts);
    SettlingKeepsTurns(r, attempts);
    SettlingKeepsCeilings(r, attempts);
    SameOrdinals(r, r.(attempts := attempts));
  }

  // ----- a dispatch that opens

  /** `s` is `r` with one more dispatch, whose attempt is open. */
  ghost predicate Opens(r: Run, s: Run, d: Dispatch) {
    && d.runId == r.runId && !IsStored(r.dispatches, d.id)
    && s == r.(dispatches := r.dispatches + [d], attempts := r.attempts[d.id := Attempt(d.task, Opened)],
               carrying := s.carrying, undelivered := s.undelivered)
    && (s.carrying == r.carrying || s.carrying == r.carrying + {d.id})
    && forall i :: 0 <= i < |s.undelivered| ==> s.undelivered[i] in r.undelivered
  }

  lemma AddingStores(ds: seq<Dispatch>, d: Dispatch)
    ensures forall id :: IsStored(ds, id) ==> IsStored(ds + [d], id)
    ensures forall id, task :: StoredFor(ds, id, task) ==> StoredFor(ds + [d], id, task)
    ensures IsStored(ds + [d], d.id) && StoredFor(ds + [d], d.id, d.task)
  {
    var all := ds + [d];
    assert all[|ds|] == d;
    forall id | IsStored(ds, id) ensures IsStored(all, id) {
      var i :| 0 <= i < |ds| && ds[i].id == id;
      assert all[i].id == id;
    }
    forall id, task | StoredFor(ds, id, task) ensures StoredFor(all, id, task) {
      var i :| 0 <= i < |ds| && ds[i].id == id && ds[i].task == task;
      assert all[i].id == id;
    }
  }

  lemma AddingKeepsIds(ds: seq<Dispatch>, d: Dispatch)
    requires IdsOk(ds) && !IsStored(ds, d.id)
    ensures IdsOk(ds + [d])
  {
  }

  lemma OpeningKeepsNames(r: Run, s: Run, d: Dispatch)
    requires NamesStored(r) && Opens(r, s, d)
    ensures NamesStored(s)
  {
    hide IsStored, StoredFor;
    AddingStores(r.dispatches, d);
  }

  lemma OpeningKeepsQuestions(r: Run, s: Run, d: Dispatch)
    requires QuestionsOk(r) && Opens(r, s, d)
    ensures QuestionsOk(s)
  {
    hide IsStored;
  }

  lemma OpeningKeepsOwners(r: Run, s: Run, d: Dispatch)
    requires OwnersOk(r) && Opens(r, s, d) && d.task in r.graph.owner
    ensures OwnersOk(s)
  {
    hide IsStored;
  }

  lemma OpeningKeepsRecords(r: Run, s: Run, d: Dispatch)
    requires IdsOk(r.dispatches) && NamesStored(r) && OwnersOk(r) && QuestionsOk(r) && Opens(r, s, d) && d.task in r.graph.owner
    ensures IdsOk(s.dispatches) && NamesStored(s) && OwnersOk(s) && QuestionsOk(s)
  {
    hide IdsOk, NamesStored, OwnersOk, QuestionsOk;
    AddingKeepsIds(r.dispatches, d);
    OpeningKeepsNames(r, s, d);
    OpeningKeepsOwners(r, s, d);
    OpeningKeepsQuestions(r, s, d);
  }

  lemma OpeningKeepsOrdinals(r: Run, s: Run, d: Dispatch)
    requires OrdinalsOk(r) && Reached(r) && Opens(r, s, d)
    requires d.task in r.graph.owner && r.graph.owner[d.task] == r.phaseKey
    requires forall i :: 0 <= i < |r.dispatches| && InPhase(ViewOf(r), r.dispatches[i]) ==> r.dispatches[i].ordinal != d.ordinal
    ensures OrdinalsOk(s) && Reached(s)
  {
    forall i, j | 0 <= i < j < |s.dispatches| && SamePhase(s, s.dispatches[i], s.dispatches[j])
      ensures s.dispatches[i].ordinal != s.dispatches[j].ordinal
    {
      if j < |r.dispatches| {
        assert SamePhase(r, r.dispatches[i], r.dispatches[j]);
      } else {
        assert InPhase(ViewOf(r), r.dispatches[i]);
      }
    }
  }

  lemma OpeningKeepsTurns(r: Run, s: Run, d: Dispatch)
    requires OpenIsNewest(r) && ExhaustedIsAccepted(r) && NamesStored(r) && Opens(r, s, d)
    requires forall i :: 0 <= i < |r.dispatches| && Mine(r, d.task, r.dispatches[i]) ==>
               !AttemptOpen(r, r.dispatches[i].id) && r.dispatches[i].ordinal < d.ordinal
    ensures OpenIsNewest(s) && ExhaustedIsAccepted(s)
  {
    forall i | 0 <= i < |s.dispatches| && AttemptOpen(s, s.dispatches[i].id) ensures Newest(s, s.dispatches[i]) {
      if i < |r.dispatches| {
        assert IsStored(r.dispatches, r.dispatches[i].id);
        assert AttemptOpen(r, r.dispatches[i].id);
        assert Newest(r, r.dispatches[i]);
        assert !Mine(r, d.task, r.dispatches[i]);
      }
    }
    forall i, j | 0 <= i < |s.questions| && 0 <= j < |s.dispatches| && AskedExhausted(s.questions[i], s.dispatches[j])
      ensures TaskAccepted(s, s.dispatches[j].task)
    {
      assert IsStored(r.dispatches, r.questions[i].dispatch);
      assert j < |r.dispatches|;
      assert AskedExhausted(r.questions[i], r.dispatches[j]);
    }
  }

  lemma OpeningKeepsAnswered(r: Run, s: Run, d: Dispatch, task: Id)
    requires NamesStored(r) && Opens(r, s, d)
    ensures AnsweredOrdinal(s, task) == AnsweredOrdinal(r, task)
  {
    forall i | 0 <= i < |r.questions| ensures r.questions[i].dispatch != d.id {
      assert IsStored(r.dispatches, r.questions[i].dispatch);
    }
    assert s.dispatches[..|r.dispatches|] == r.dispatches;
    forall i | 0 <= i < |r.dispatches| ensures WasAnswered(r, r.dispatches[i]) <==> WasAnswered(s, r.dispatches[i]) { }
    LastAnsweredDepends(r, s, r.dispatches, task);
  }

  lemma {:induction false} AnswersForSome(answers: seq<Answer>, task: Id)
    ensures AnswersFor(answers, task) == 0 <==> forall i :: 0 <= i < |answers| ==> answers[i].task != task
  {
    if answers != [] {
      AnswersForSome(answers[..|answers| - 1], task);
      assert answers == answers[..|answers| - 1] + [answers[|answers| - 1]];
    }
  }

  /** What an opening must not exceed. A dispatch that carries no answer needs
      room under the allowance; one that does is paid for by the answers it delivers. */
  ghost predicate HasRoom(r: Run, s: Run, d: Dispatch) {
    if s.carrying == r.carrying then
      && s.undelivered == r.undelivered
      && CountIf(r.dispatches, e => PlainNew(r, d.task, AnsweredOrdinal(r, d.task), e)) < Allowance(r.graph, d.task)
    else
      && AnswersFor(s.undelivered, d.task) < AnswersFor(r.undelivered, d.task)
      && forall task: Id :: AnswersFor(s.undelivered, task) <= AnswersFor(r.undelivered, task)
  }

  lemma OpenedIsNotCounted(r: Run, s: Run, d: Dispatch, task: Id)
    requires NamesStored(r) && Opens(r, s, d)
    ensures d.id !in r.carrying && forall i :: 0 <= i < |r.dispatches| ==> r.dispatches[i].id != d.id
    ensures forall i :: 0 <= i < |r.dispatches| && NotSuspended(s, task, r.dispatches[i]) ==> NotSuspended(r, task, r.dispatches[i])
  {
    forall i | 0 <= i < |r.dispatches| ensures r.dispatches[i].id != d.id {
      assert IsStored(r.dispatches, r.dispatches[i].id);
    }
  }

  lemma OpeningKeepsCeiling(r: Run, s: Run, d: Dispatch, task: Id)
    requires NamesStored(r) && Opens(r, s, d) && HasRoom(r, s, d) && Ceiling(r, task)
    requires AnsweredOrdinal(r, d.task) < d.ordinal
    ensures Ceiling(s, task)
  {
    hide NamesStored, AnsweredOrdinal, CountIf, NotSuspended, Allowance;
    var after := AnsweredOrdinal(r, task);
    OpeningKeepsAnswered(r, s, d, task);
    OpenedIsNotCounted(r, s, d, task);
    if task != d.task { StrangersAreNotCounted(s, task, d); }
    CountOfMore(r.dispatches, d, e => PlainNew(s, task, after, e), e => PlainNew(r, task, after, e));
    CountOfMore(r.dispatches, d, e => PlainOld(s, task, after, e), e => PlainOld(r, task, after, e));
    CountOfMore(r.dispatches, d, e => Carries(s, task, e), e => Carries(r, task, e));
  }

  lemma StrangersAreNotCounted(r: Run, task: Id, d: Dispatch)
    requires task != d.task
    ensures !NotSuspended(r, task, d) && !Carries(r, task, d)
  {
  }

  lemma OpeningKeeps(r: Run, s: Run, d: Dispatch)
    requires RunOk(r) && Opens(r, s, d) && HasRoom(r, s, d) && FirstsInOrder(s)
    requires d.task in r.graph.owner && r.graph.owner[d.task] == r.phaseKey
    requires AnsweredOrdinal(r, d.task) < d.ordinal
    requires forall i :: 0 <= i < |r.dispatches| && InPhase(ViewOf(r), r.dispatches[i]) ==> r.dispatches[i].ordinal != d.ordinal
    requires forall i :: 0 <= i < |r.dispatches| && Mine(r, d.task, r.dispatches[i]) ==>
               !AttemptOpen(r, r.dispatches[i].id) && r.dispatches[i].ordinal < d.ordinal
    ensures RunOk(s)
  {
    hide OrdinalsOk, FirstsInOrder, Reached, GraphOk, OpenIsNewest, NamesStored, OwnersOk, QuestionsOk, ExhaustedIsAccepted, IdsOk,
         HasRoom, Ceiling, AnsweredOrdinal, InPhase, AttemptOpen;
    OpeningKeepsRecords(r, s, d);
    OpeningKeepsOrdinals(r, s, d);
    OpeningKeepsTurns(r, s, d);
    forall task: Id ensures Ceiling(s, task) {
      assert Ceiling(r, task);
      OpeningKeepsCeiling(r, s, d, task);
    }
  }
}
