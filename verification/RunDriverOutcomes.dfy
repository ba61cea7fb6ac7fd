/** What the outcome of one step tells about the run. */
module RunDriverOutcomes {
  import opened CodeUnits
  import opened Options
  import opened DispatchSelection
  import opened RunDriverModel
  import opened RunDriverInvariants
  import opened RunDriverChanges
  import opened RunDriverSteps
  import opened RunDriverProofs
  import Coverage = TaskCoverage

  // ----- starting the next phase

  /** Everything a phase owes before its successor starts. */
  ghost predicate PhaseIsDone(r: Run, reading: Reading) {
    r.phaseKey in r.graph.phases &&
    var spec := r.graph.phases[r.phaseKey];
    var current := Current(ViewOf(r), r.dispatches);
    // every member was dispatched, and every current dispatch handed in
    && (spec.fanOut ==> forall i :: 0 <= i < |spec.tasks| ==> Tried(r, spec.tasks[i].id))
    && current != [] && (forall i :: 0 <= i < |current| ==> current[i].id in r.completions)
    // its outputs are published and exactly its unsuperseded tasks are accepted
    && !reading.publishRefused && !reading.deliveryFails
    && multiset(Coverage.Ids(Coverage.InPhase(reading.acceptedAfter, r.graph.owner, r.phaseKey)))
       == multiset(Coverage.Unsuperseded(spec.tasks, spec.tasks))
    // its gate was accepted, no approval is owed, and the authority closed it
    && reading.gateAccepted && !(spec.approvalRequired && reading.approvalPending) && reading.close == Completed
  }

  lemma CloseMoves(r: Run, tries: nat, spec: PhaseSpec, d: Dispatch, reading: Reading)
    requires reading.freshId !in r.attempts && CloseStep(r, tries, spec, d, reading).run.phaseKey != r.phaseKey
    ensures reading.close == Completed && NextKey(r) == Some(CloseStep(r, tries, spec, d, reading).run.phaseKey)
    ensures CloseStep(r, tries, spec, d, reading).outcome == PhaseClosed
  {
    hide Retry;
    RetryFollows(r, spec, d, reading);
  }

  lemma GateMoves(r: Run, spec: PhaseSpec, d: Dispatch, reading: Reading)
    requires reading.freshId !in r.attempts && GateStep(r, spec, d, reading).run.phaseKey != r.phaseKey
    ensures !reading.publishRefused && !reading.deliveryFails && Covered(r.(accepted := reading.acceptedAfter), spec)
    ensures reading.gateAccepted && !(spec.approvalRequired && reading.approvalPending) && reading.close == Completed
    ensures NextKey(r) == Some(GateStep(r, spec, d, reading).run.phaseKey)
    ensures GateStep(r, spec, d, reading).outcome == PhaseClosed
  {
    hide RefusedStep, CloseStep, Covered, TaskAttempts;
    var s := r.(accepted := reading.acceptedAfter);
    if !reading.publishRefused && !reading.deliveryFails && Covered(s, spec) && !reading.gateCommandFails {
      if !reading.gateAccepted {
        RefusedFollows(s, TaskAttempts(r, d.task), spec, d, reading);
      } else if !(spec.approvalRequired && reading.approvalPending) {
        CloseMoves(s, TaskAttempts(r, d.task), spec, d, reading);
      }
    }
  }

  lemma WorkMoves(r: Run, spec: PhaseSpec, d: Dispatch, reading: Reading)
    requires reading.freshId !in r.attempts && WorkStep(r, spec, d, reading).run.phaseKey != r.phaseKey
    ensures d.id in r.completions && d.id in r.published && GateStep(r, spec, d, reading).run.phaseKey != r.phaseKey
    ensures WorkStep(r, spec, d, reading) == GateStep(r, spec, d, reading)
  {
    hide Retry, GateStep, TaskAttempts;
    RetryFollows(r, spec, d, reading);
  }

  lemma CarriedMoves(r: Run, spec: PhaseSpec, d: Dispatch, reading: Reading)
    requires reading.freshId !in r.attempts && reading.freshId != d.id
    requires CarriedStep(r, spec, d, reading).run.phaseKey != r.phaseKey
    ensures d.id in r.completions
    ensures !reading.publishRefused && !reading.deliveryFails && Covered(r.(accepted := reading.acceptedAfter), spec)
    ensures reading.gateAccepted && !(spec.approvalRequired && reading.approvalPending) && reading.close == Completed
    ensures NextKey(r) == Some(CarriedStep(r, spec, d, reading).run.phaseKey)
    ensures CarriedStep(r, spec, d, reading).outcome == PhaseClosed
  {
    hide AbortStep, AnswerStep, WorkStep, TaskAttempts, TaskDone, Owes, OwesExhausted, AttemptOpen, StillOwed, AnswersItsAsker, GateStep, Covered;
    AbortFollows(r, spec, d, reading);
    AnswerFollows(r, spec, d, reading);
    var settled := r.(undelivered := StillOwed(r.questions, r.undelivered, d));
    var s := if CarriedStep(r, spec, d, reading) == WorkStep(r, spec, d, reading) then r else settled;
    WorkMoves(s, spec, d, reading);
    GateMoves(s, spec, d, reading);
    SameCover(r, settled, spec, reading);
  }

  lemma SameCover(r: Run, s: Run, spec: PhaseSpec, reading: Reading)
    requires s == r.(undelivered := s.undelivered)
    ensures Covered(s.(accepted := reading.acceptedAfter), spec) <==> Covered(r.(accepted := reading.acceptedAfter), spec)
  {
  }

  lemma OpenMoves(r: Run, reading: Reading)
    requires r.phaseKey in r.graph.phases && reading.freshId !in r.attempts && !Stored(r, reading.freshId)
    requires OpenStep(r, r.graph.phases[r.phaseKey], reading).run.phaseKey != r.phaseKey
    ensures PhaseIsDone(r, reading)
    ensures NextKey(r) == Some(OpenStep(r, r.graph.phases[r.phaseKey], reading).run.phaseKey)
    ensures OpenStep(r, r.graph.phases[r.phaseKey], reading).outcome == PhaseClosed
  {
    hide CarriedStep, PendingStep, FirstStep, Covered, Carried, ViewOf, Current, Stored, TurnsFollow, Tried;
    var spec := r.graph.phases[r.phaseKey];
    PendingIsNoneTried(r, spec.tasks);
    if spec.fanOut && Pending(r, spec.tasks, 0).Some? {
      PendingFollows(r, spec, Pending(r, spec.tasks, 0).value, reading);
    } else if Carried(ViewOf(r), r.dispatches).None? {
      FirstFollows(r, spec, reading);
    } else {
      var d := Carried(ViewOf(r), r.dispatches).value;
      CarriedIsNotFresh(r, d, reading.freshId);
      CarriedMoves(r, spec, d, reading);
      AllHandedIn(r, d);
      CoveredIsComplete(r, spec, reading);
    }
  }

  lemma AllHandedIn(r: Run, d: Dispatch)
    requires Carried(ViewOf(r), r.dispatches) == Some(d) && d.id in r.completions
    ensures var current := Current(ViewOf(r), r.dispatches);
            current != [] && forall i :: 0 <= i < |current| ==> current[i].id in r.completions
  {
    CarriedMeans(ViewOf(r), r.dispatches);
    var current := Current(ViewOf(r), r.dispatches);
    forall i | 0 <= i < |current| ensures current[i].id in r.completions { assert current[i] in current; }
  }

  lemma CoveredIsComplete(r: Run, spec: PhaseSpec, reading: Reading)
    requires Covered(r.(accepted := reading.acceptedAfter), spec)
    ensures multiset(Coverage.Ids(Coverage.InPhase(reading.acceptedAfter, r.graph.owner, r.phaseKey)))
            == multiset(Coverage.Unsuperseded(spec.tasks, spec.tasks))
  {
    Coverage.CoverageComparesTaskSets(spec.tasks, reading.acceptedAfter, r.graph.owner, r.phaseKey);
  }

  /** A run changes phase only in a step that closed the phase it was on, only to
      that phase's successor, and only when the phase owed nothing any more. */
  lemma SuccessorStartsWhenPhaseIsDone(r: Run, e: Event)
    requires RunOk(r) && EventOk(r, e) && Apply(r, e).phaseKey != r.phaseKey
    ensures e.Step? && StepIn(r, e.reading).outcome == PhaseClosed
    ensures PhaseIsDone(r, e.reading) && NextKey(r) == Some(Apply(r, e).phaseKey)
  {
    hide RunOk, OpenStep, CloseEnded, ReadingOk, PhaseIsDone;
    var c := CloseEnded(r);
    ClosingSettles(r);
    ClosingKeeps(r);
    StepIsRead(r, e.reading);
    ClosingKeepsReading(r, e.reading);
    FreshOfReading(c, e.reading);
    FreshIsUnrecorded(c, e.reading.freshId);
    OpenMoves(c, e.reading);
    DoneBeforeClosing(r, c, e.reading);
  }

  lemma FreshOfReading(r: Run, reading: Reading)
    requires ReadingOk(r, reading)
    ensures !Stored(r, reading.freshId)
  {
  }

  lemma DoneBeforeClosing(r: Run, c: Run, reading: Reading)
    requires c == r.(attempts := c.attempts) && PhaseIsDone(c, reading)
    ensures PhaseIsDone(r, reading)
  {
    assert ViewOf(c) == ViewOf(r);
    forall task ensures Tried(c, task) <==> Tried(r, task) { }
  }

  // ----- waiting

  lemma GateAwaitsNobody(r: Run, spec: PhaseSpec, d: Dispatch, reading: Reading)
    ensures GateStep(r, spec, d, reading).outcome.AwaitingAgent? ==> GateStep(r, spec, d, reading).outcome.turn.None?
  {
    hide TaskAttempts, Covered, Outstanding, NextAttempt, RetryTask;
  }

  lemma CarriedAwaits(r: Run, spec: PhaseSpec, d: Dispatch, reading: Reading, id: Id)
    requires CarriedStep(r, spec, d, reading).outcome == AwaitingAgent(Some(id))
    ensures id == d.id && (HasAsked(r, id) || !AttemptOver(r, id))
  {
    hide AttemptOver, TaskAttempts, TaskDone, Owes, OwesExhausted, Unowed, StillOwed, AnswersItsAsker, GateStep, NextAttempt, RetryTask, HasAsked;
    var settled := r.(undelivered := StillOwed(r.questions, r.undelivered, d));
    GateAwaitsNobody(r, spec, d, reading);
    GateAwaitsNobody(settled, spec, d, reading);
    SameTurnsRecorded(r, settled, d.id);
  }

  lemma SameTurnsRecorded(r: Run, s: Run, id: Id)
    requires s == r.(undelivered := s.undelivered)
    ensures (HasAsked(s, id) <==> HasAsked(r, id)) && (AttemptOver(s, id) <==> AttemptOver(r, id))
  {
  }

  lemma OpenAwaits(r: Run, reading: Reading, id: Id)
    requires r.phaseKey in r.graph.phases && OpenStep(r, r.graph.phases[r.phaseKey], reading).outcome == AwaitingAgent(Some(id))
    ensures Carried(ViewOf(r), r.dispatches).Some? && Carried(ViewOf(r), r.dispatches).value.id == id
    ensures HasAsked(r, id) || !AttemptOver(r, id)
  {
    hide CarriedStep, StopsFast, Carried, AttemptOver, HasAsked;
    var spec := r.graph.phases[r.phaseKey];
    if !(spec.fanOut && Pending(r, spec.tasks, 0).Some?) && Carried(ViewOf(r), r.dispatches).Some? {
      CarriedAwaits(r, spec, Carried(ViewOf(r), r.dispatches).value, reading, id);
    }
  }

  /** A step names a turn it waits for only when that turn asked something, or when
      nothing says it is over: it has not handed in, has not returned, and its task
      is not accepted. */
  lemma WaitIsJustified(r: Run, reading: Reading, id: Id)
    requires StepIn(r, reading).outcome == AwaitingAgent(Some(id))
    ensures Stored(r, id)
    ensures HasAsked(r, id) || (id !in r.completions && id !in r.returned && !OnAccepted(r, id))
  {
    hide OpenStep, CloseEnded, Carried;
    var c := CloseEnded(r);
    ClosingSettles(r);
    OpenAwaits(c, reading, id);
    var d := Carried(ViewOf(c), c.dispatches).value;
    CarriedIsOnTop(c, d);
    OnTopIsStored(c, d);
    var i :| 0 <= i < |r.dispatches| && r.dispatches[i] == d;
    EndedTurnsAreRecorded(r, id);
  }

  // ----- an answer settled with the dispatch that asked

  /** The dispatch a step is about, if every member has its first one. */
  function StepsAbout(r: Run): Option<Dispatch> {
    if r.phaseKey !in r.graph.phases || (r.closed && NextKey(r).None?) then None
    else
      var spec := r.graph.phases[r.phaseKey];
      if spec.fanOut && Pending(r, spec.tasks, 0).Some? then None else Carried(ViewOf(r), r.dispatches)
  }

  predicate Abandons(r: Run, d: Dispatch) {
    r.phaseKey in r.graph.phases && d.id !in r.completions && d.id in r.aborts
    && TaskAttempts(CloseEnded(r), d.task) < r.graph.phases[r.phaseKey].maximumAttempts
  }

  /** The task of `d` is done, nobody answered its exhaustion, and one of the answers
      owed to it is to a question `d` itself asked. */
  predicate SettlesItsOwn(r: Run, d: Dispatch) { TaskDone(r, d.task) && !OwesExhausted(r, d.task) && AnswersItsAsker(r, d) }

  lemma WorkDeliversNothing(r: Run, spec: PhaseSpec, d: Dispatch, reading: Reading)
    ensures WorkStep(r, spec, d, reading).outcome != Thrown(DeliveryRefused)
  {
    hide TaskAttempts, HasAsked, AttemptOver, Covered, Outstanding, NextAttempt, RetryTask, OtherOpen;
  }

  lemma CarriedRefusesDelivery(r: Run, spec: PhaseSpec, d: Dispatch, reading: Reading)
    ensures CarriedStep(r, spec, d, reading).outcome == Thrown(DeliveryRefused) <==>
              !(d.id !in r.completions && d.id in r.aborts && TaskAttempts(r, d.task) < spec.maximumAttempts) && SettlesItsOwn(r, d)
    ensures CarriedStep(r, spec, d, reading).outcome == Thrown(DeliveryRefused) ==>
              CarriedStep(r, spec, d, reading).run == r.(undelivered := StillOwed(r.questions, r.undelivered, d))
  {
    hide TaskAttempts, TaskDone, OwesExhausted, StillOwed, WorkStep, NextAttempt, RetryTask, OtherOpen;
    WorkDeliversNothing(r, spec, d, reading);
    WorkDeliversNothing(r.(undelivered := StillOwed(r.questions, r.undelivered, d)), spec, d, reading);
  }

  lemma SettlingIgnoresTurns(r: Run, s: Run, d: Dispatch)
    requires s == r.(attempts := s.attempts)
    ensures SettlesItsOwn(s, d) <==> SettlesItsOwn(r, d)
    ensures StepsAbout(s) == StepsAbout(r)
  {
    assert ViewOf(s) == ViewOf(r);
    if r.phaseKey in r.graph.phases { PendingDepends(r, s, r.graph.phases[r.phaseKey].tasks, 0); }
  }

  /** A step is refused a delivery exactly when it is about a dispatch that no
      person abandons and that asked a question whose answer its done task is owed. */
  lemma DeliveryIsRefusedExactly(r: Run, reading: Reading)
    ensures StepIn(r, reading).outcome == Thrown(DeliveryRefused) <==>
              StepsAbout(r).Some? && !Abandons(r, StepsAbout(r).value) && SettlesItsOwn(r, StepsAbout(r).value)
    ensures StepIn(r, reading).outcome == Thrown(DeliveryRefused) ==>
              StepIn(r, reading).run == CloseEnded(r).(undelivered := StillOwed(r.questions, r.undelivered, StepsAbout(r).value))
  {
    hide CarriedStep, StopsFast, Carried, SettlesItsOwn, CloseEnded, TaskAttempts, StillOwed, PendingStep, FirstStep;
    var c := CloseEnded(r);
    ClosingSettles(r);
    if StepsAbout(r).Some? {
      var d := StepsAbout(r).value;
      SettlingIgnoresTurns(r, c, d);
      CarriedRefusesDelivery(c, r.graph.phases[r.phaseKey], d, reading);
    } else if r.phaseKey in r.graph.phases && !(r.closed && NextKey(r).None?) {
      SettlingIgnoresTurns(r, c, Dispatch([], [], [], 0));
      NoMemberRefuses(c, reading);
    }
  }

  /** A first dispatch delivers nothing. */
  lemma NoMemberRefuses(r: Run, reading: Reading)
    requires r.phaseKey in r.graph.phases && StepsAbout(r).None? && !(r.closed && NextKey(r).None?)
    ensures OpenStep(r, r.graph.phases[r.phaseKey], reading).outcome != Thrown(DeliveryRefused)
  {
    hide CarriedStep, StopsFast, Carried, OtherOpen;
  }

  lemma {:induction false} RefusedStaysOwed(questions: seq<Question>, answers: seq<Answer>, d: Dispatch)
    ensures StillOwed(questions, StillOwed(questions, answers, d), d) == StillOwed(questions, answers, d)
    ensures (exists i :: 0 <= i < |answers| && RefusesDelivery(questions, answers[i], d)) ==>
              exists i :: 0 <= i < |StillOwed(questions, answers, d)| && RefusesDelivery(questions, StillOwed(questions, answers, d)[i], d)
  {
    hide RefusesDelivery;
    if answers != [] && !RefusesDelivery(questions, answers[0], d) {
      var rest, owed := StillOwed(questions, answers[1..], d), StillOwed(questions, answers, d);
      RefusedStaysOwed(questions, answers[1..], d);
      if i :| 0 <= i < |answers| && RefusesDelivery(questions, answers[i], d) {
        assert answers[1..][i - 1] == answers[i];
        var k :| 0 <= k < |rest| && RefusesDelivery(questions, rest[k], d);
        assert owed[k + |owed| - |rest|] == rest[k];
      }
      if answers[0].task != d.task {
        assert owed[0] == answers[0] && owed[1..] == rest;
      } else {
        assert owed == rest;
      }
    }
  }

  lemma SettlingKeepsSteps(r: Run, s: Run)
    requires s == r.(undelivered := s.undelivered)
    ensures StepsAbout(s) == StepsAbout(r) && forall task: Id :: TaskDone(s, task) <==> TaskDone(r, task)
  {
    assert ViewOf(s) == ViewOf(r);
    if r.phaseKey in r.graph.phases { PendingDepends(r, s, r.graph.phases[r.phaseKey].tasks, 0); }
  }

  lemma EndingIgnoresOwed(r: Run, s: Run, id: Id)
    requires s == r.(undelivered := s.undelivered)
    ensures EndedAs(s, id) == EndedAs(r, id) && (Stored(s, id) <==> Stored(r, id)) && (AttemptOver(s, id) <==> AttemptOver(r, id))
  {
    assert HasAsked(s, id) <==> HasAsked(r, id);
    assert OnAccepted(s, id) <==> OnAccepted(r, id);
    hide HasAsked, OnAccepted;
  }

  lemma SettlingKeepsEndings(r: Run, s: Run)
    requires s == r.(undelivered := s.undelivered)
    ensures CloseEnded(s) == CloseEnded(r).(undelivered := s.undelivered)
  {
    hide EndedAs, Stored, AttemptOver;
    forall id: Id ensures EndedAs(s, id) == EndedAs(r, id) && (Stored(s, id) <==> Stored(r, id)) && (AttemptOver(s, id) <==> AttemptOver(r, id)) {
      EndingIgnoresOwed(r, s, id);
    }
    assert StoredIds(s) == StoredIds(r);
  }

  lemma SettlingKeepsTries(r: Run, s: Run, task: Id)
    requires s == r.(undelivered := s.undelivered)
    ensures TaskAttempts(s, task) == TaskAttempts(r, task)
  {
    AnsweredSame(r, s, task);
    var after := AnsweredOrdinal(r, task);
    CountOfImplied(r.dispatches, e => Spent(s, task, after, e), e => Spent(r, task, after, e));
    CountOfImplied(r.dispatches, e => Spent(r, task, after, e), e => Spent(s, task, after, e));
  }

  lemma LessIsOwed(r: Run, s: Run, d: Dispatch)
    requires s == r.(undelivered := StillOwed(r.questions, r.undelivered, d)) && SettlesItsOwn(r, d)
    ensures SettlesItsOwn(s, d) && StillOwed(s.questions, s.undelivered, d) == s.undelivered
  {
    hide StillOwed, RefusesDelivery, CloseEnded, TaskAttempts;
    SettlingKeepsSteps(r, s);
    DeliveringOnlyRemoves(r.questions, r.undelivered, d);
    RefusedStaysOwed(r.questions, r.undelivered, d);
  }

  /** A refused delivery is met again by the next step, whatever it reads: that step
      throws too and leaves the run as it is. */
  lemma RefusedDeliveryIsMetAgain(r: Run, reading: Reading, next: Reading)
    requires StepIn(r, reading).outcome == Thrown(DeliveryRefused)
    ensures StepIn(StepIn(r, reading).run, next) == Stepped(StepIn(r, reading).run, Thrown(DeliveryRefused))
  {
    hide StepIn, StepsAbout, CloseEnded, TaskAttempts, SettlesItsOwn, StillOwed;
    var c, s := CloseEnded(r), StepIn(r, reading).run;
    DeliveryIsRefusedExactly(r, reading);
    var d := StepsAbout(r).value;
    ClosingSettles(r);
    RecordingIsIdempotent(r);
    SettlingIgnoresTurns(r, c, d);
    SettlingKeepsSteps(c, s);
    SettlingKeepsEndings(c, s);
    SettlingKeepsTries(c, s, d.task);
    LessIsOwed(c, s, d);
    DeliveryIsRefusedExactly(s, next);
  }

  /** So no number of steps gets the run past it. */
  lemma {:induction false} RefusedDeliveryStops(r: Run, reading: Reading, steps: seq<Event>)
    requires StepIn(r, reading).outcome == Thrown(DeliveryRefused) && forall i :: 0 <= i < |steps| ==> steps[i].Step?
    ensures After(StepIn(r, reading).run, steps) == StepIn(r, reading).run
    decreases |steps|
  {
    hide StepIn;
    if steps != [] {
      RefusedDeliveryIsMetAgain(r, reading, steps[0].reading);
      RefusedDeliveryStops(StepIn(r, reading).run, steps[0].reading, steps[1..]);
    }
  }

  // ----- a run that is stopped by an answer

  const THE_TASK: Id := [116]
  const FIRST_TRY: Dispatch := Dispatch([97], [114], THE_TASK, 1)
  const THE_PHASE: PhaseSpec := PhaseSpec(false, [Coverage.Task(THE_TASK, [])], 2, true, false, false, false)

  /** One phase of one task that may be tried twice, with its first dispatch. */
  const THE_RUN: Run :=
    Run([114], Graph(["p"], [], map["p" := THE_PHASE], map[THE_TASK := "p"], false), "p", false, [FIRST_TRY], map[], map[], [],
        {}, {}, {}, {}, [], [], [], {})

  lemma TheRunIsNew()
    ensures NewRun(THE_RUN)
  {
    assert THE_PHASE.tasks[0].id == THE_TASK;
    assert Declares(THE_PHASE.tasks, THE_TASK);
  }

  const THE_QUESTION: Question := Question(FIRST_TRY.id, Asked([113]))
  const ANSWERED_LATE: seq<Event> :=
    [Ask(FIRST_TRY.id, [113]), HandIn(FIRST_TRY.id, false), AnswerQuestion(THE_QUESTION, THE_TASK)]

  lemma ThreeEvents(r: Run, a: Event, b: Event, c: Event)
    requires EventOk(r, a) && EventOk(Apply(r, a), b) && EventOk(Apply(Apply(r, a), b), c)
    ensures History(r, [a, b, c]) && After(r, [a, b, c]) == Apply(Apply(Apply(r, a), b), c)
  {
    hide EventOk, Apply;
    var one, two, three := Apply(r, a), Apply(Apply(r, a), b), Apply(Apply(Apply(r, a), b), c);
    assert [a, b, c][1..] == [b, c] && [b, c][1..] == [c] && [c][1..] == [];
    assert After(three, []) == three && After(two, [c]) == three && After(one, [b, c]) == three;
    assert History(three, []) && History(two, [c]) && History(one, [b, c]);
  }

  lemma AnsweredLateIsAllowed()
    ensures History(THE_RUN, ANSWERED_LATE)
    ensures After(THE_RUN, ANSWERED_LATE)
            == THE_RUN.(completions := map[FIRST_TRY.id := false], questions := [THE_QUESTION],
                           answered := [Answer(Asked([113]), THE_TASK)], undelivered := [Answer(Asked([113]), THE_TASK)])
  {
    hide History, After, ReadingOk, StaysAccepted;
    assert THE_RUN.dispatches[0] == FIRST_TRY;
    ThreeEvents(THE_RUN, ANSWERED_LATE[0], ANSWERED_LATE[1], ANSWERED_LATE[2]);
  }

  /** A new run whose first dispatch asks, hands in and is then answered: every step
      is refused the delivery of that answer. */
  lemma AnsweredAfterHandingInStops(reading: Reading)
    ensures NewRun(THE_RUN) && History(THE_RUN, ANSWERED_LATE)
    ensures StepIn(After(THE_RUN, ANSWERED_LATE), reading).outcome == Thrown(DeliveryRefused)
  {
    TheRunIsNew();
    AnsweredLateIsAllowed();
    var r := After(THE_RUN, ANSWERED_LATE);
    hide After, History, NewRun, StepIn, CloseEnded, TaskAttempts, Carried;
    assert r.dispatches[0] == FIRST_TRY && InPhase(ViewOf(r), FIRST_TRY);
    assert r.undelivered[0].submission == r.questions[0].submission;
    CarriedMeans(ViewOf(r), r.dispatches);
    CarriedIsOnTop(r, Carried(ViewOf(r), r.dispatches).value);
    OnTopIsStored(r, Carried(ViewOf(r), r.dispatches).value);
    DeliveryIsRefusedExactly(r, reading);
  }
}
