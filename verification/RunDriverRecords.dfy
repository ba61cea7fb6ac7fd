/** Records that arrive or move without a dispatch keep the invariant too. */
module RunDriverRecords {
  import opened CodeUnits
  import opened Options
  import opened DispatchSelection
  import opened RunDriverModel
  import opened RunDriverInvariants
  import opened RunDriverChanges
  import Coverage = TaskCoverage
  import PhaseWalk

  // ----- facts that only accumulate

  /** Completions name stored dispatches, acceptance stays, deliveries only leave. */
  ghost predicate Accumulates(r: Run, s: Run) {
    && SameDispatches(r, s) && s.attempts == r.attempts && s.carrying == r.carrying
    && s.questions == r.questions && s.answered == r.answered
    && (forall id :: id in s.completions ==> IsStored(r.dispatches, id))
    && StaysAccepted(r, s.accepted)
    && (forall i :: 0 <= i < |s.undelivered| ==> s.undelivered[i] in r.undelivered)
    && forall task: Id :: AnswersFor(s.undelivered, task) <= AnswersFor(r.undelivered, task)
  }

  lemma AccumulatingKeepsRecords(r: Run, s: Run)
    requires Accumulates(r, s)
    requires NamesStored(r) && OwnersOk(r) && QuestionsOk(r) && ExhaustedIsAccepted(r) && OpenIsNewest(r)
    ensures NamesStored(s) && OwnersOk(s) && QuestionsOk(s) && ExhaustedIsAccepted(s) && OpenIsNewest(s)
  {
    forall task | TaskAccepted(r, task) ensures TaskAccepted(s, task) {
      var i :| 0 <= i < |r.accepted| && r.accepted[i].id == task;
      assert AcceptedIn(s.accepted, r.accepted[i].id);
    }
    forall i | 0 <= i < |s.dispatches| && AttemptOpen(s, s.dispatches[i].id) ensures Newest(s, s.dispatches[i]) {
      assert AttemptOpen(r, r.dispatches[i].id);
    }
  }

  lemma AccumulatingKeeps(r: Run, s: Run)
    requires RunOk(r) && Accumulates(r, s)
    ensures RunOk(s)
  {
    hide OrdinalsOk, FirstsInOrder, Reached, GraphOk, OpenIsNewest, NamesStored, OwnersOk, QuestionsOk, ExhaustedIsAccepted, IdsOk, Ceiling;
    AccumulatingKeepsRecords(r, s);
    SameOrdinals(r, s);
    forall task: Id ensures Ceiling(s, task) {
      assert Ceiling(r, task);
      AnsweredSame(r, s, task);
      CeilingFollows(r, s, task);
    }
  }

  // ----- a question

  ghost predicate MayAsk(r: Run, q: Question) {
    && IsStored(r.dispatches, q.dispatch) && !IsSubmitted(r.questions, q.submission)
    && (q.submission.Exhausted? ==> q.submission.dispatch == q.dispatch)
    && forall j :: 0 <= j < |r.dispatches| && AskedExhausted(q, r.dispatches[j]) ==> TaskAccepted(r, r.dispatches[j].task)
  }

  lemma AskingKeepsQuestions(r: Run, q: Question)
    requires MayAsk(r, q) && QuestionsOk(r)
    ensures QuestionsOk(r.(questions := r.questions + [q]))
  {
    hide IsStored, TaskAccepted;
    var s := r.(questions := r.questions + [q]);
    forall submission | IsSubmitted(r.questions, submission) ensures IsSubmitted(s.questions, submission) {
      var i :| 0 <= i < |r.questions| && r.questions[i].submission == submission;
      assert s.questions[i].submission == submission;
    }
  }

  lemma AskingNeedsAcceptance(r: Run, q: Question)
    requires MayAsk(r, q) && ExhaustedIsAccepted(r)
    ensures ExhaustedIsAccepted(r.(questions := r.questions + [q]))
  {
    hide IsStored;
    var s := r.(questions := r.questions + [q]);
    assert forall task :: TaskAccepted(r, task) <==> TaskAccepted(s, task);
    hide TaskAccepted;
    forall i, j | 0 <= i < |s.questions| && 0 <= j < |s.dispatches| && AskedExhausted(s.questions[i], s.dispatches[j])
      ensures TaskAccepted(s, s.dispatches[j].task)
    {
      if i < |r.questions| { assert AskedExhausted(r.questions[i], r.dispatches[j]); }
    }
  }

  lemma AskingKeepsNames(r: Run, q: Question)
    requires MayAsk(r, q) && NamesStored(r) && OwnersOk(r)
    ensures NamesStored(r.(questions := r.questions + [q])) && OwnersOk(r.(questions := r.questions + [q]))
  {
    hide IsStored, StoredFor, IsSubmitted;
  }

  lemma AskingKeepsRecords(r: Run, q: Question)
    requires MayAsk(r, q) && NamesStored(r) && OwnersOk(r) && QuestionsOk(r) && ExhaustedIsAccepted(r) && OpenIsNewest(r)
    ensures var s := r.(questions := r.questions + [q]);
            NamesStored(s) && OwnersOk(s) && QuestionsOk(s) && ExhaustedIsAccepted(s) && OpenIsNewest(s)
  {
    hide MayAsk, NamesStored, OwnersOk, QuestionsOk, ExhaustedIsAccepted, OpenIsNewest;
    AskingKeepsNames(r, q);
    AskingKeepsQuestions(r, q);
    AskingNeedsAcceptance(r, q);
    SameTurnsAreNewest(r, r.(questions := r.questions + [q]));
  }

  lemma AskingKeepsAnswered(r: Run, q: Question, task: Id)
    requires MayAsk(r, q) && QuestionsOk(r)
    ensures AnsweredOrdinal(r.(questions := r.questions + [q]), task) == AnsweredOrdinal(r, task)
  {
    var s := r.(questions := r.questions + [q]);
    forall d | d in r.dispatches ensures WasAnswered(r, d) <==> WasAnswered(s, d) {
      if WasAnswered(s, d) {
        var i :| 0 <= i < |s.questions| && s.questions[i].dispatch == d.id && Answer(s.questions[i].submission, d.task) in s.answered;
        var k :| 0 <= k < |r.answered| && r.answered[k] == Answer(s.questions[i].submission, d.task);
        assert IsSubmitted(r.questions, r.answered[k].submission);
        assert i < |r.questions|;
        assert r.questions[i].dispatch == d.id;
      }
      if WasAnswered(r, d) {
        var i :| 0 <= i < |r.questions| && r.questions[i].dispatch == d.id && Answer(r.questions[i].submission, d.task) in r.answered;
        assert s.questions[i].dispatch == d.id;
      }
    }
    LastAnsweredDepends(r, s, r.dispatches, task);
  }

  lemma AskingKeeps(r: Run, q: Question)
    requires RunOk(r) && MayAsk(r, q)
    ensures RunOk(r.(questions := r.questions + [q]))
  {
    hide OrdinalsOk, FirstsInOrder, Reached, GraphOk, OpenIsNewest, NamesStored, OwnersOk, QuestionsOk, ExhaustedIsAccepted, IdsOk,
         Ceiling, MayAsk, AnsweredOrdinal;
    var s := r.(questions := r.questions + [q]);
    AskingKeepsRecords(r, q);
    SameOrdinals(r, s);
    forall task: Id ensures Ceiling(s, task) {
      assert Ceiling(r, task);
      AskingKeepsAnswered(r, q, task);
      CeilingFollows(r, s, task);
    }
  }

  // ----- an answer

  function Answering(r: Run, a: Answer): Run { r.(answered := r.answered + [a], undelivered := r.undelivered + [a]) }

  lemma SameTurnsAreNewest(r: Run, s: Run)
    requires s.runId == r.runId && s.dispatches == r.dispatches && s.attempts == r.attempts && OpenIsNewest(r)
    ensures OpenIsNewest(s)
  {
    forall i | 0 <= i < |s.dispatches| && AttemptOpen(s, s.dispatches[i].id) ensures Newest(s, s.dispatches[i]) {
      assert AttemptOpen(r, r.dispatches[i].id);
    }
  }

  lemma AnsweringNeedsAcceptance(r: Run, q: Question, task: Id)
    requires EventOk(r, AnswerQuestion(q, task)) && ExhaustedIsAccepted(r)
    ensures ExhaustedIsAccepted(Answering(r, Answer(q.submission, task)))
  {
    var s := Answering(r, Answer(q.submission, task));
    forall t ensures TaskAccepted(r, t) <==> TaskAccepted(s, t) { }
    if q.submission.Exhausted? {
      var i :| 0 <= i < |r.questions| && r.questions[i] == q;
      var j :| 0 <= j < |r.dispatches| && r.dispatches[j].id == q.dispatch && Mine(r, task, r.dispatches[j]);
      assert AskedExhausted(r.questions[i], r.dispatches[j]);
    }
  }

  lemma AnsweringKeepsRecords(r: Run, q: Question, task: Id)
    requires EventOk(r, AnswerQuestion(q, task)) && NamesStored(r) && OwnersOk(r) && QuestionsOk(r)
    ensures var s := Answering(r, Answer(q.submission, task)); NamesStored(s) && OwnersOk(s) && QuestionsOk(s)
  {
    hide IsStored, StoredFor, ReadingOk, Stored;
    var i :| 0 <= i < |r.questions| && r.questions[i] == q;
    assert IsSubmitted(r.questions, q.submission);
    hide EventOk;
  }

  lemma AnsweringMovesOrdinal(r: Run, a: Answer, task: Id)
    ensures AnsweredOrdinal(r, task) <= AnsweredOrdinal(Answering(r, a), task)
    ensures task != a.task ==> AnsweredOrdinal(Answering(r, a), task) == AnsweredOrdinal(r, task)
  {
    var s := Answering(r, a);
    forall d | d in r.dispatches && WasAnswered(r, d) ensures WasAnswered(s, d) {
      var i :| 0 <= i < |r.questions| && r.questions[i].dispatch == d.id && Answer(r.questions[i].submission, d.task) in r.answered;
      assert s.questions[i].dispatch == d.id;
    }
    LastAnsweredGrows(r, s, r.dispatches, task);
    if task != a.task {
      forall d | d in r.dispatches && d.task == task && WasAnswered(s, d) ensures WasAnswered(r, d) {
        var i :| 0 <= i < |s.questions| && s.questions[i].dispatch == d.id && Answer(s.questions[i].submission, d.task) in s.answered;
        assert r.questions[i].dispatch == d.id;
      }
      LastAnsweredDepends(r, s, r.dispatches, task);
    }
  }

  lemma MoreAnswers(answers: seq<Answer>, a: Answer, task: Id)
    ensures AnswersFor(answers + [a], task) == AnswersFor(answers, task) + (if a.task == task then 1 else 0)
  {
    assert (answers + [a])[..|answers|] == answers;
  }

  lemma AnsweringKeepsCeiling(r: Run, a: Answer, task: Id)
    requires Ceiling(r, task)
    ensures Ceiling(Answering(r, a), task)
  {
    hide NotSuspended, AnsweredOrdinal, CountIf, Allowance, AnswersFor;
    var s := Answering(r, a);
    AnsweringMovesOrdinal(r, a, task);
    MoreAnswers(r.answered, a, task);
    MoreAnswers(r.undelivered, a, task);
    assert forall d :: NotSuspended(s, task, d) <==> NotSuspended(r, task, d) by { SameTurns(r, s, task); }
    var before, after := AnsweredOrdinal(r, task), AnsweredOrdinal(s, task);
    CountOfImplied(r.dispatches, d => PlainNew(s, task, after, d), d => PlainNew(r, task, before, d));
    CountOfImplied(r.dispatches, d => Carries(s, task, d), d => Carries(r, task, d));
    if a.task == task {
      CountOfEither(r.dispatches, d => PlainOld(s, task, after, d), d => PlainOld(r, task, before, d), d => PlainNew(r, task, before, d));
      OneMore(Allowance(r.graph, task), AnswersFor(r.answered, task));
    } else {
      CountOfImplied(r.dispatches, d => PlainOld(s, task, after, d), d => PlainOld(r, task, before, d));
    }
  }

  lemma SameTurns(r: Run, s: Run, task: Id)
    requires r.runId == s.runId && r.attempts == s.attempts
    ensures forall d :: NotSuspended(s, task, d) <==> NotSuspended(r, task, d)
  {
  }

  lemma OneMore(a: nat, b: nat)
    ensures a * (b + 1) == a * b + a
  {
  }

  lemma AnsweringKeeps(r: Run, q: Question, task: Id)
    requires RunOk(r) && EventOk(r, AnswerQuestion(q, task))
    ensures RunOk(Answering(r, Answer(q.submission, task)))
  {
    hide OrdinalsOk, FirstsInOrder, Reached, GraphOk, OpenIsNewest, NamesStored, OwnersOk, QuestionsOk, ExhaustedIsAccepted, IdsOk,
         Ceiling, EventOk;
    AnsweringKeepsRecords(r, q, task);
    AnsweringNeedsAcceptance(r, q, task);
    SameTurnsAreNewest(r, Answering(r, Answer(q.submission, task)));
    SameOrdinals(r, Answering(r, Answer(q.submission, task)));
    forall t: Id ensures Ceiling(Answering(r, Answer(q.submission, task)), t) {
      assert Ceiling(r, t);
      AnsweringKeepsCeiling(r, Answer(q.submission, task), t);
    }
  }

  // ----- a dispatch of another run

  lemma StrangerKeepsRecords(r: Run, d: Dispatch)
    requires d.runId != r.runId && !IsStored(r.dispatches, d.id)
    requires IdsOk(r.dispatches) && NamesStored(r) && OwnersOk(r) && QuestionsOk(r)
    ensures var s := r.(dispatches := r.dispatches + [d]); IdsOk(s.dispatches) && NamesStored(s) && OwnersOk(s) && QuestionsOk(s)
  {
    var s := r.(dispatches := r.dispatches + [d]);
    forall id | IsStored(r.dispatches, id) ensures IsStored(s.dispatches, id) {
      var i :| 0 <= i < |r.dispatches| && r.dispatches[i].id == id;
      assert s.dispatches[i].id == id;
    }
    forall id, task | StoredFor(r.dispatches, id, task) ensures StoredFor(s.dispatches, id, task) && IsStored(r.dispatches, id) {
      var i :| 0 <= i < |r.dispatches| && r.dispatches[i].id == id && r.dispatches[i].task == task;
      assert s.dispatches[i].id == id;
    }
  }

  lemma StrangerKeepsTurns(r: Run, d: Dispatch)
    requires d.runId != r.runId && !IsStored(r.dispatches, d.id)
    requires NamesStored(r) && ExhaustedIsAccepted(r) && OpenIsNewest(r)
    ensures ExhaustedIsAccepted(r.(dispatches := r.dispatches + [d])) && OpenIsNewest(r.(dispatches := r.dispatches + [d]))
  {
    var s := r.(dispatches := r.dispatches + [d]);
    forall task ensures TaskAccepted(r, task) <==> TaskAccepted(s, task) { }
    forall i, j | 0 <= i < |s.questions| && 0 <= j < |s.dispatches| && AskedExhausted(s.questions[i], s.dispatches[j])
      ensures TaskAccepted(s, s.dispatches[j].task)
    {
      assert IsStored(r.dispatches, r.questions[i].dispatch);
      assert j < |r.dispatches|;
      assert AskedExhausted(r.questions[i], r.dispatches[j]);
    }
    forall i | 0 <= i < |s.dispatches| && AttemptOpen(s, s.dispatches[i].id) ensures Newest(s, s.dispatches[i]) {
      assert StoredFor(r.dispatches, s.dispatches[i].id, r.attempts[s.dispatches[i].id].task);
      assert i < |r.dispatches|;
      assert AttemptOpen(r, r.dispatches[i].id);
    }
  }

  lemma {:induction false} PendingIgnores(r: Run, s: Run, tasks: seq<Coverage.Task>, from: nat)
    requires from <= |tasks| && forall i :: 0 <= i < |tasks| ==> (Tried(r, tasks[i].id) <==> Tried(s, tasks[i].id))
    ensures Pending(r, tasks, from) == Pending(s, tasks, from)
    decreases |tasks| - from
  {
    if from < |tasks| {
      PendingIgnores(r, s, tasks, from + 1);
    }
  }

  lemma StrangerIsNoTry(r: Run, d: Dispatch, task: Id)
    requires d.runId != r.runId
    ensures Tried(r.(dispatches := r.dispatches + [d]), task) <==> Tried(r, task)
  {
    var s := r.(dispatches := r.dispatches + [d]);
    if Tried(r, task) {
      var i :| 0 <= i < |r.dispatches| && Mine(r, task, r.dispatches[i]);
      assert Mine(s, task, s.dispatches[i]);
    }
    if Tried(s, task) {
      var i :| 0 <= i < |s.dispatches| && Mine(s, task, s.dispatches[i]);
      assert Mine(r, task, r.dispatches[i]);
    }
  }

  lemma StrangerKeepsFirsts(r: Run, d: Dispatch)
    requires d.runId != r.runId && FirstsInOrder(r)
    ensures FirstsInOrder(r.(dispatches := r.dispatches + [d]))
  {
    var s := r.(dispatches := r.dispatches + [d]);
    if r.phaseKey in r.graph.phases {
      hide Tried, AtItsPlace;
      var tasks := r.graph.phases[r.phaseKey].tasks;
      forall i | 0 <= i < |tasks| ensures Tried(r, tasks[i].id) <==> Tried(s, tasks[i].id) { StrangerIsNoTry(r, d, tasks[i].id); }
      PendingIgnores(r, s, tasks, 0);
      assert forall e :: InPhase(ViewOf(r), e) <==> InPhase(ViewOf(s), e);
    }
  }

  lemma StrangerKeepsOrdinals(r: Run, d: Dispatch)
    requires d.runId != r.runId && OrdinalsOk(r) && FirstsInOrder(r) && Reached(r)
    ensures var s := r.(dispatches := r.dispatches + [d]); OrdinalsOk(s) && FirstsInOrder(s) && Reached(s)
  {
    hide FirstsInOrder;
    StrangerKeepsFirsts(r, d);
    var s := r.(dispatches := r.dispatches + [d]);
    forall i, j | 0 <= i < j < |s.dispatches| && SamePhase(s, s.dispatches[i], s.dispatches[j])
      ensures s.dispatches[i].ordinal != s.dispatches[j].ordinal
    {
      assert j < |r.dispatches|;
      assert SamePhase(r, r.dispatches[i], r.dispatches[j]);
    }
  }

  lemma StrangerKeepsCeiling(r: Run, d: Dispatch, task: Id)
    requires d.runId != r.runId && Ceiling(r, task)
    ensures Ceiling(r.(dispatches := r.dispatches + [d]), task)
  {
    hide CountIf, Allowance, AnswersFor;
    var s := r.(dispatches := r.dispatches + [d]);
    assert s.dispatches[..|r.dispatches|] == r.dispatches;
    LastAnsweredDepends(r, s, r.dispatches, task);
    var after := AnsweredOrdinal(r, task);
    assert AnsweredOrdinal(s, task) == after;
    CountOfMore(r.dispatches, d, e => PlainNew(s, task, after, e), e => PlainNew(r, task, after, e));
    CountOfMore(r.dispatches, d, e => PlainOld(s, task, after, e), e => PlainOld(r, task, after, e));
    CountOfMore(r.dispatches, d, e => Carries(s, task, e), e => Carries(r, task, e));
  }

  lemma StrangerKeeps(r: Run, d: Dispatch)
    requires RunOk(r) && d.runId != r.runId && !IsStored(r.dispatches, d.id)
    ensures RunOk(r.(dispatches := r.dispatches + [d]))
  {
    hide OrdinalsOk, FirstsInOrder, Reached, GraphOk, OpenIsNewest, NamesStored, OwnersOk, QuestionsOk, ExhaustedIsAccepted, IdsOk, Ceiling;
    StrangerKeepsRecords(r, d);
    StrangerKeepsTurns(r, d);
    StrangerKeepsOrdinals(r, d);
    forall task: Id ensures Ceiling(r.(dispatches := r.dispatches + [d]), task) {
      assert Ceiling(r, task);
      StrangerKeepsCeiling(r, d, task);
    }
  }

  // ----- the next phase, and members made of a collection

  lemma AdvancingKeeps(r: Run, next: Key, closed: bool)
    requires RunOk(r) && NextKey(r) == Some(next)
    ensures RunOk(r.(phaseKey := next, closed := closed))
  {
    hide GraphOk, OpenIsNewest, NamesStored, OwnersOk, QuestionsOk, ExhaustedIsAccepted, IdsOk, Ceiling, OrdinalsOk, FirstsInOrder, Reached;
    var s := r.(phaseKey := next, closed := closed);
    AdvancingReaches(r, next, closed);
    AdvancingKeepsRecords(r, s);
    forall task: Id ensures Ceiling(s, task) {
      assert Ceiling(r, task);
      AnsweredSame(r, s, task);
      CeilingIgnoresPhase(r, s, task);
    }
  }

  lemma CeilingIgnoresPhase(r: Run, s: Run, task: Id)
    requires s == r.(phaseKey := s.phaseKey, closed := s.closed) && AnsweredOrdinal(s, task) == AnsweredOrdinal(r, task)
    requires Ceiling(r, task)
    ensures Ceiling(s, task)
  {
    hide CountIf, Allowance, AnswersFor, AnsweredOrdinal;
    var after := AnsweredOrdinal(r, task);
    CountOfImplied(r.dispatches, d => PlainNew(s, task, after, d), d => PlainNew(r, task, after, d));
    CountOfImplied(r.dispatches, d => PlainOld(s, task, after, d), d => PlainOld(r, task, after, d));
    CountOfImplied(r.dispatches, d => Carries(s, task, d), d => Carries(r, task, d));
  }

  lemma AdvancingKeepsRecords(r: Run, s: Run)
    requires s == r.(phaseKey := s.phaseKey, closed := s.closed)
    requires NamesStored(r) && OwnersOk(r) && QuestionsOk(r) && ExhaustedIsAccepted(r) && OpenIsNewest(r) && OrdinalsOk(r)
    ensures NamesStored(s) && OwnersOk(s) && QuestionsOk(s) && ExhaustedIsAccepted(s) && OpenIsNewest(s) && OrdinalsOk(s)
  {
    forall task ensures TaskAccepted(r, task) <==> TaskAccepted(s, task) { }
    forall i | 0 <= i < |s.dispatches| && AttemptOpen(s, s.dispatches[i].id) ensures Newest(s, s.dispatches[i]) {
      assert AttemptOpen(r, r.dispatches[i].id);
    }
    forall i, j | 0 <= i < j < |s.dispatches| && SamePhase(s, s.dispatches[i], s.dispatches[j])
      ensures s.dispatches[i].ordinal != s.dispatches[j].ordinal
    {
      assert SamePhase(r, r.dispatches[i], r.dispatches[j]);
    }
  }

  lemma AdvancingReaches(r: Run, next: Key, closed: bool)
    requires GraphOk(r.graph) && Reached(r) && NextKey(r) == Some(next)
    ensures Reached(r.(phaseKey := next, closed := closed)) && FirstsInOrder(r.(phaseKey := next, closed := closed))
  {
    var s := r.(phaseKey := next, closed := closed);
    assert next in r.graph.order;
    PhaseWalk.NextIsLater(r.graph.order, r.graph.nodes, r.phaseKey);
    assert Rank(r.graph, next) == Rank(r.graph, r.phaseKey) + 1;
    forall i | 0 <= i < |s.dispatches| && s.dispatches[i].runId == s.runId && s.dispatches[i].task in s.graph.owner
      ensures Rank(s.graph, s.graph.owner[s.dispatches[i].task]) <= Rank(s.graph, s.phaseKey)
      ensures s.graph.owner[s.dispatches[i].task] != next
    {
      assert r.dispatches[i].runId == r.runId;
    }
  }

  lemma PhasesOfMaterialised(g: Graph, key: Key, tasks: seq<Coverage.Task>)
    requires key in g.phases
    ensures var made := Materialised(g, key, tasks);
            && made.order == g.order && (forall k :: k in made.phases <==> k in g.phases) && made.phases[key].tasks == tasks
            && forall k :: k in g.phases && k != key ==> made.phases[k] == g.phases[k]
  {
  }

  lemma NothingIsOwned(g: Graph, key: Key)
    requires GraphOk(g) && key in g.phases && g.phases[key].tasks == []
    ensures forall task :: task in g.owner ==> g.owner[task] != key
  {
    hide TasksOk;
    forall task | task in g.owner ensures g.owner[task] != key { assert Declares(g.phases[g.owner[task]].tasks, task); }
  }

  lemma OwnersAreDeclared(g: Graph, key: Key, tasks: seq<Coverage.Task>, task: Id)
    requires GraphOk(g) && key in g.phases && g.phases[key].tasks == [] && NewTasks(g, tasks) && task in Materialised(g, key, tasks).owner
    ensures var made := Materialised(g, key, tasks);
            made.owner[task] in made.phases && Declares(made.phases[made.owner[task]].tasks, task)
  {
    NothingIsOwned(g, key);
    OwnersOfMaterialised(g, key, tasks);
    PhasesOfMaterialised(g, key, tasks);
    hide TasksOk, NewTasks, Materialised, Declares;
  }

  lemma MaterialisingKeepsGraph(g: Graph, key: Key, tasks: seq<Coverage.Task>)
    requires GraphOk(g) && key in g.phases && g.phases[key].fanOut && g.phases[key].tasks == [] && NewTasks(g, tasks)
    ensures GraphOk(Materialised(g, key, tasks))
    ensures forall task :: task in g.owner ==> task in Materialised(g, key, tasks).owner && Materialised(g, key, tasks).owner[task] == g.owner[task]
    ensures forall task :: task in g.owner ==> g.owner[task] != key
  {
    hide TasksOk, NewTasks, Materialised, Declares;
    var made := Materialised(g, key, tasks);
    NothingIsOwned(g, key);
    OwnersOfMaterialised(g, key, tasks);
    PhasesOfMaterialised(g, key, tasks);
    forall k | k in made.phases ensures TasksOk(made, k) {
      MaterialisingKeepsTasks(g, key, tasks, k);
    }
    forall task | task in made.owner ensures made.owner[task] in made.phases && Declares(made.phases[made.owner[task]].tasks, task) {
      OwnersAreDeclared(g, key, tasks, task);
    }
  }

  lemma OwnersOfMaterialised(g: Graph, key: Key, tasks: seq<Coverage.Task>)
    requires key in g.phases && NewTasks(g, tasks)
    ensures var made := Materialised(g, key, tasks);
            && (forall task :: task in g.owner ==> task in made.owner && made.owner[task] == g.owner[task])
            && (forall i :: 0 <= i < |tasks| ==> tasks[i].id in made.owner && made.owner[tasks[i].id] == key)
            && forall task :: task in made.owner && task !in g.owner ==> Declares(tasks, task) && made.owner[task] == key
  {
  }

  lemma MaterialisingKeepsTasks(g: Graph, key: Key, tasks: seq<Coverage.Task>, k: Key)
    requires key in g.phases && g.phases[key].fanOut && NewTasks(g, tasks) && k in g.phases && TasksOk(g, k)
    ensures TasksOk(Materialised(g, key, tasks), k)
  {
    OwnersOfMaterialised(g, key, tasks);
  }

  lemma MaterialisingKeepsRecords(r: Run, s: Run)
    requires s == r.(graph := s.graph)
    requires NamesStored(r) && QuestionsOk(r) && ExhaustedIsAccepted(r) && OpenIsNewest(r)
    ensures NamesStored(s) && QuestionsOk(s) && ExhaustedIsAccepted(s) && OpenIsNewest(s)
  {
    forall task ensures TaskAccepted(r, task) <==> TaskAccepted(s, task) { }
    forall i | 0 <= i < |s.dispatches| && AttemptOpen(s, s.dispatches[i].id) ensures Newest(s, s.dispatches[i]) {
      assert AttemptOpen(r, r.dispatches[i].id);
    }
  }

  /** The owners of what a run dispatched are kept, and none of them is `key`. */
  ghost predicate KeepsOwners(r: Run, s: Run, key: Key) {
    && s == r.(graph := s.graph)
    && forall i :: 0 <= i < |r.dispatches| && r.dispatches[i].runId == r.runId ==>
         var task := r.dispatches[i].task;
         task in r.graph.owner && task in s.graph.owner && s.graph.owner[task] == r.graph.owner[task] != key
  }

  lemma KeptOwnersKeepOrdinals(r: Run, s: Run, key: Key)
    requires KeepsOwners(r, s, key) && OrdinalsOk(r)
    ensures OrdinalsOk(s) && OwnersOk(s)
  {
    forall i, j | 0 <= i < j < |s.dispatches| && SamePhase(s, s.dispatches[i], s.dispatches[j])
      ensures s.dispatches[i].ordinal != s.dispatches[j].ordinal
    {
      assert SamePhase(r, r.dispatches[i], r.dispatches[j]);
    }
  }

  lemma KeptOwnersKeepReach(r: Run, s: Run)
    requires KeepsOwners(r, s, r.phaseKey) && Reached(r) && s.graph.order == r.graph.order && r.phaseKey in s.graph.phases
    ensures Reached(s) && FirstsInOrder(s)
  {
    forall i | 0 <= i < |s.dispatches| ensures !InPhase(ViewOf(s), s.dispatches[i]) { }
  }

  lemma MaterialisingKeepsOrdinals(r: Run, tasks: seq<Coverage.Task>)
    requires GraphOk(r.graph) && OwnersOk(r) && OrdinalsOk(r) && Reached(r)
    requires r.graph.phases[r.phaseKey].fanOut && r.graph.phases[r.phaseKey].tasks == [] && NewTasks(r.graph, tasks)
    ensures var s := r.(graph := Materialised(r.graph, r.phaseKey, tasks));
            GraphOk(s.graph) && OwnersOk(s) && OrdinalsOk(s) && Reached(s) && FirstsInOrder(s)
  {
    hide GraphOk, OrdinalsOk, FirstsInOrder, NewTasks, Materialised;
    var s := r.(graph := Materialised(r.graph, r.phaseKey, tasks));
    MaterialisingKeepsGraph(r.graph, r.phaseKey, tasks);
    assert KeepsOwners(r, s, r.phaseKey);
    KeyIsKept(r, tasks);
    hide OwnersOk, Reached, KeepsOwners;
    KeptOwnersKeepOrdinals(r, s, r.phaseKey);
    KeptOwnersKeepReach(r, s);
  }

  lemma KeyIsKept(r: Run, tasks: seq<Coverage.Task>)
    requires r.phaseKey in r.graph.phases
    ensures var g := Materialised(r.graph, r.phaseKey, tasks); g.order == r.graph.order && r.phaseKey in g.phases
  {
  }

  lemma MaterialisingKeepsCeiling(r: Run, s: Run, task: Id)
    requires s == r.(graph := s.graph) && OwnersOk(r) && Ceiling(r, task)
    requires task in r.graph.owner ==> Allowance(s.graph, task) == Allowance(r.graph, task)
    ensures Ceiling(s, task)
  {
    hide CountIf, Allowance, AnswersFor, AnsweredOrdinal;
    AnsweredSame(r, s, task);
    var after := AnsweredOrdinal(r, task);
    CountOfImplied(r.dispatches, d => PlainNew(s, task, after, d), d => PlainNew(r, task, after, d));
    CountOfImplied(r.dispatches, d => PlainOld(s, task, after, d), d => PlainOld(r, task, after, d));
    CountOfImplied(r.dispatches, d => Carries(s, task, d), d => Carries(r, task, d));
    if task !in r.graph.owner {
      forall i | 0 <= i < |r.dispatches| ensures !Mine(r, task, r.dispatches[i]) { }
      CountOfNone(r.dispatches, d => PlainNew(s, task, after, d));
      CountOfNone(r.dispatches, d => PlainOld(s, task, after, d));
    }
  }

  lemma MaterialisingKeeps(r: Run, tasks: seq<Coverage.Task>)
    requires RunOk(r) && r.graph.phases[r.phaseKey].fanOut && r.graph.phases[r.phaseKey].tasks == [] && NewTasks(r.graph, tasks)
    ensures RunOk(r.(graph := Materialised(r.graph, r.phaseKey, tasks)))
  {
    var s := r.(graph := Materialised(r.graph, r.phaseKey, tasks));
    AllowancesStay(r.graph, r.phaseKey, tasks);
    MaterialisingKeepsOrdinals(r, tasks);
    hide GraphOk, OpenIsNewest, NamesStored, OwnersOk, QuestionsOk, ExhaustedIsAccepted, IdsOk, Ceiling, OrdinalsOk, FirstsInOrder, Reached,
         Materialised, Allowance;
    MaterialisingKeepsRecords(r, s);
    forall task: Id ensures Ceiling(s, task) {
      assert Ceiling(r, task);
      MaterialisingKeepsCeiling(r, s, task);
    }
  }

  lemma AllowancesStay(g: Graph, key: Key, tasks: seq<Coverage.Task>)
    requires key in g.phases && NewTasks(g, tasks)
    ensures forall task :: task in g.owner ==> Allowance(Materialised(g, key, tasks), task) == Allowance(g, task)
  {
  }
}
