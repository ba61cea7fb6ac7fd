/** When the workers, the gates and the people a run waits for do their part, the
    driver finishes it within a bounded number of steps. */
module RunDriverProgress {
  import opened CodeUnits
  import opened Options
  import opened DispatchSelection
  import opened RunDriverModel
  import opened RunDriverInvariants
  import opened RunDriverChanges
  import opened RunDriverRecords
  import opened RunDriverSteps
  import opened RunDriverProofs
  import opened RunDriverOutcomes
  import opened RunDriverRetries
  import Coverage = TaskCoverage
  import PhaseWalk

  // ----- what is left to do

  /** The declared tasks nothing was dispatched for yet. */
  function Waiting(r: Run, tasks: seq<Coverage.Task>): nat {
    if tasks == [] then 0
    else Waiting(r, tasks[..|tasks| - 1]) + (if Tried(r, tasks[|tasks| - 1].id) then 0 else 1)
  }

  function PhasesAfter(r: Run): nat { |r.graph.order| - 1 - Rank(r.graph, r.phaseKey) }

  /** What the current phase still dispatches; `members` bounds the members it may yet be given. */
  function Stage(r: Run, members: nat): nat
    requires r.phaseKey in r.graph.phases
  {
    var tasks := r.graph.phases[r.phaseKey].tasks;
    if tasks == [] then members + 1 else Waiting(r, tasks)
  }

  /** Rounds enough for phases not yet begun: one for each member and two more of each. */
  function Allotted(phases: nat, members: nat): nat { if phases == 0 then 0 else Allotted(phases - 1, members) + members + 2 }

  function Left(r: Run, members: nat): nat
    requires r.phaseKey in r.graph.phases
  {
    Allotted(PhasesAfter(r), members) + Stage(r, members) + |r.undelivered|
  }

  ghost predicate MembersWithin(g: Graph, members: nat) { forall key :: key in g.phases ==> |g.phases[key].tasks| <= members }

  /** A step that finished the run or left less to do. */
  ghost predicate Lowers(r: Run, made: Stepped, members: nat)
    requires r.phaseKey in r.graph.phases
  {
    made.outcome == Finished
    || (made.run.phaseKey in made.run.graph.phases && MembersWithin(made.run.graph, members) && Left(made.run, members) < Left(r, members))
  }

  lemma {:induction false} WaitingFollows(r: Run, s: Run, tasks: seq<Coverage.Task>)
    requires forall task :: Tried(r, task) ==> Tried(s, task)
    ensures Waiting(s, tasks) <= Waiting(r, tasks) <= |tasks|
  {
    hide Tried;
    if tasks != [] { WaitingFollows(r, s, tasks[..|tasks| - 1]); }
  }

  lemma {:induction false} WaitingShrinks(r: Run, s: Run, tasks: seq<Coverage.Task>, k: nat)
    requires forall task :: Tried(r, task) ==> Tried(s, task)
    requires k < |tasks| && !Tried(r, tasks[k].id) && Tried(s, tasks[k].id)
    ensures Waiting(s, tasks) < Waiting(r, tasks)
  {
    hide Tried;
    var n := |tasks| - 1;
    if k < n {
      assert tasks[..n][k] == tasks[k];
      WaitingShrinks(r, s, tasks[..n], k);
    } else {
      WaitingFollows(r, s, tasks[..n]);
    }
  }

  lemma SameTried(r: Run, s: Run)
    requires s.runId == r.runId && s.dispatches == r.dispatches
    ensures forall task :: Tried(s, task) <==> Tried(r, task)
  {
  }

  lemma SameWaiting(r: Run, s: Run, tasks: seq<Coverage.Task>)
    requires forall task :: Tried(s, task) <==> Tried(r, task)
    ensures Waiting(s, tasks) == Waiting(r, tasks)
  {
    hide Tried, Waiting;
    WaitingFollows(r, s, tasks);
    WaitingFollows(s, r, tasks);
  }

  lemma TriedGrows(r: Run, s: Run, nd: Dispatch)
    requires s.runId == r.runId == nd.runId && s.dispatches == r.dispatches + [nd]
    ensures (forall task :: Tried(r, task) ==> Tried(s, task)) && Tried(s, nd.task)
  {
    hide Tried;
    forall task ensures Tried(r, task) ==> Tried(s, task) { TriedStays(r, s, nd, task); }
    TriedStays(r, s, nd, nd.task);
  }

  lemma StageIsBounded(r: Run, members: nat)
    requires r.phaseKey in r.graph.phases && MembersWithin(r.graph, members)
    ensures Stage(r, members) <= members + 1
  {
    hide Waiting, Tried;
    WaitingFollows(r, r, r.graph.phases[r.phaseKey].tasks);
  }

  lemma {:induction false} AllottedIsProduct(phases: nat, members: nat)
    ensures Allotted(phases, members) == phases * (members + 2)
  {
    if phases > 0 {
      AllottedIsProduct(phases - 1, members);
      OneMore(members + 2, phases - 1);
    }
  }

  lemma {:induction false} AllottedGrows(few: nat, phases: nat, members: nat)
    requires few < phases
    ensures Allotted(few, members) + members + 2 <= Allotted(phases, members)
  {
    if few < phases - 1 { AllottedGrows(few, phases - 1, members); }
  }

  // ----- one step

  lemma DispatchLowers(r: Run, made: Stepped, nd: Dispatch, k: nat, members: nat)
    requires r.phaseKey in r.graph.phases && MembersWithin(r.graph, members)
    requires nd.runId == r.runId && k < |r.graph.phases[r.phaseKey].tasks| && nd.task == r.graph.phases[r.phaseKey].tasks[k].id
    requires !Tried(r, nd.task) && made.run == r.(dispatches := r.dispatches + [nd], attempts := made.run.attempts)
    ensures Lowers(r, made, members)
  {
    hide Tried, Waiting, MembersWithin, PhasesAfter;
    TriedGrows(r, made.run, nd);
    WaitingShrinks(r, made.run, r.graph.phases[r.phaseKey].tasks, k);
    SamePhases(r, made.run);
  }

  lemma SamePhases(r: Run, s: Run)
    requires s.graph == r.graph && s.phaseKey == r.phaseKey
    ensures PhasesAfter(s) == PhasesAfter(r)
  {
  }

  lemma PendingLowers(r: Run, spec: PhaseSpec, at: nat, reading: Reading, members: nat)
    requires r.phaseKey in r.graph.phases && MembersWithin(r.graph, members) && spec == r.graph.phases[r.phaseKey]
    requires Pending(r, spec.tasks, 0) == Some(at) && !StopsFast(r)
    ensures Lowers(r, PendingStep(r, spec, at, reading), members)
  {
    hide Tried, StopsFast, OtherOpen, Lowers, MembersWithin;
    var nd := Dispatch(reading.freshId, r.runId, spec.tasks[at].id, at + 1);
    DispatchLowers(r, PendingStep(r, spec, at, reading), nd, at, members);
  }

  /** The members a fan-out is given when its phase has none yet. */
  predicate MakesMembers(reading: Reading, members: nat) { reading.fanOut.Members? && 0 < |reading.fanOut.tasks| <= members }

  lemma MembersLower(r: Run, tasks: seq<Coverage.Task>, members: nat)
    requires r.phaseKey in r.graph.phases && MembersWithin(r.graph, members) && r.graph.phases[r.phaseKey].tasks == []
    requires 0 < |tasks| <= members
    ensures Lowers(r, Stepped(r.(graph := Materialised(r.graph, r.phaseKey, tasks)), FannedOut(|tasks|)), members)
  {
    hide Tried, Waiting, Materialised, Rank;
    var s := r.(graph := Materialised(r.graph, r.phaseKey, tasks));
    PhasesOfMaterialised(r.graph, r.phaseKey, tasks);
    RankIsByOrder(r.graph, s.graph, r.phaseKey);
    WaitingFollows(s, s, tasks);
  }

  lemma RankIsByOrder(g: Graph, h: Graph, key: Key)
    requires h.order == g.order
    ensures Rank(h, key) == Rank(g, key)
  {
  }

  lemma FirstLowers(r: Run, spec: PhaseSpec, reading: Reading, members: nat)
    requires RunOk(r) && NonePending(r) && MembersWithin(r.graph, members) && spec == r.graph.phases[r.phaseKey]
    requires forall d :: d in r.dispatches ==> !InPhase(ViewOf(r), d)
    requires spec.tasks == [] ==> spec.fanOut && MakesMembers(reading, members)
    ensures Lowers(r, FirstStep(r, spec, reading), members)
  {
    hide RunOk, Tried, OtherOpen, Lowers, MembersWithin, InPhase, Materialised;
    if spec.tasks != [] {
      FirstTaskIsUntried(r, spec);
      var nd := Dispatch(reading.freshId, r.runId, spec.tasks[0].id, 1);
      DispatchLowers(r, FirstStep(r, spec, reading), nd, 0, members);
    } else {
      MembersLower(r, reading.fanOut.tasks, members);
    }
  }

  lemma {:induction false} UnowedIsLess(answers: seq<Answer>, task: Id)
    ensures |Unowed(answers, task)| <= |answers|
    ensures (exists i :: 0 <= i < |answers| && answers[i].task == task) ==> |Unowed(answers, task)| < |answers|
  {
    if answers != [] {
      var first, rest := answers[0], answers[1..];
      assert answers == [first] + rest;
      UnowedOfMore(first, rest, task);
      UnowedIsLess(rest, task);
      hide Unowed;
      if i :| 0 <= i < |answers| && answers[i].task == task {
        assert i > 0 ==> rest[i - 1] == answers[i];
      }
    }
  }

  lemma {:induction false} StillOwedIsLess(questions: seq<Question>, answers: seq<Answer>, d: Dispatch)
    ensures |StillOwed(questions, answers, d)| <= |answers|
  {
    hide RefusesDelivery;
    if answers != [] && !RefusesDelivery(questions, answers[0], d) {
      StillOwedIsLess(questions, answers[1..], d);
    }
  }

  lemma AnswerLeaves(r: Run, spec: PhaseSpec, d: Dispatch, reading: Reading)
    requires AnswerStep(r, spec, d, reading).outcome == Dispatched(reading.freshId)
    ensures var s := AnswerStep(r, spec, d, reading).run;
            && s == r.(dispatches := s.dispatches, attempts := s.attempts, carrying := s.carrying, undelivered := Unowed(r.undelivered, d.task))
            && |s.dispatches| == |r.dispatches| + 1 && s.dispatches == r.dispatches + [s.dispatches[|r.dispatches|]]
            && s.dispatches[|r.dispatches|].runId == r.runId
  {
    hide NextAttempt, RetryTask, Unowed, OtherOpen;
  }

  lemma AnswerLowers(r: Run, spec: PhaseSpec, d: Dispatch, reading: Reading, members: nat)
    requires Carrying(r, spec, d, reading) && Owes(r, d.task) && NoneOpen(r, d.task) && MembersWithin(r.graph, members)
    ensures r.phaseKey in r.graph.phases && Lowers(r, AnswerStep(r, spec, d, reading), members)
  {
    hide Carrying, RunOk, NonePending, NoneOpen, AnswerStep, Waiting, Tried, Unowed, MembersWithin, PhasesAfter, InPhase, Stored;
    CarryingMeans(r, spec, d, reading);
    PartsOfSelection(r);
    AnswerKeeps(r, spec, d, reading);
    AnswerLeaves(r, spec, d, reading);
    var s := AnswerStep(r, spec, d, reading).run;
    UnowedIsLess(r.undelivered, d.task);
    TriedGrows(r, s, s.dispatches[|r.dispatches|]);
    WaitingFollows(r, s, r.graph.phases[r.phaseKey].tasks);
    SamePhases(r, s);
  }

  /** The outputs are published, delivered and accepted, the gate and the people
      accept, and the authorities close the phase and start the next. */
  ghost predicate GateOpens(r: Run, spec: PhaseSpec, reading: Reading) {
    && !reading.publishRefused && !reading.deliveryFails && Covered(r.(accepted := reading.acceptedAfter), spec)
    && !reading.gateCommandFails && reading.gateAccepted && !(spec.approvalRequired && reading.approvalPending)
    && reading.close == Completed && !reading.startFails
  }

  lemma OpenGateCloses(r: Run, spec: PhaseSpec, d: Dispatch, reading: Reading)
    requires GateOpens(r, spec, reading)
    ensures GateStep(r, spec, d, reading).outcome == Finished
            || (NextKey(r).Some? && GateStep(r, spec, d, reading).run
                                    == r.(accepted := reading.acceptedAfter, phaseKey := NextKey(r).value, closed := false))
  {
    hide Covered, TaskAttempts, NextKey, RefusedStep, Retry;
    SameNext(r, r.(accepted := reading.acceptedAfter));
  }

  lemma SameNext(r: Run, s: Run)
    requires s.graph == r.graph && s.phaseKey == r.phaseKey
    ensures NextKey(s) == NextKey(r)
  {
  }

  lemma NextIsDeclared(r: Run)
    requires GraphOk(r.graph) && NextKey(r).Some?
    ensures NextKey(r).value in r.graph.phases && Rank(r.graph, NextKey(r).value) == Rank(r.graph, r.phaseKey) + 1
  {
    hide TasksOk;
    PhaseWalk.NextIsLater(r.graph.order, r.graph.nodes, r.phaseKey);
    assert NextKey(r).value in r.graph.order;
  }

  lemma GateLowers(r: Run, spec: PhaseSpec, d: Dispatch, reading: Reading, members: nat)
    requires GraphOk(r.graph) && r.phaseKey in r.graph.phases && MembersWithin(r.graph, members) && GateOpens(r, spec, reading)
    ensures Lowers(r, GateStep(r, spec, d, reading), members)
  {
    hide GraphOk, GateOpens, GateStep, NextKey, Stage, MembersWithin, Rank;
    OpenGateCloses(r, spec, d, reading);
    var s := GateStep(r, spec, d, reading).run;
    if GateStep(r, spec, d, reading).outcome != Finished {
      NextIsDeclared(r);
      RankIsFound(r.graph, NextKey(r).value);
      StageIsBounded(s, members);
      assert Allotted(PhasesAfter(r), members) == Allotted(PhasesAfter(s), members) + members + 2;
    }
  }

  /** The dispatch a step is about has handed in and published, and no answer to a
      question of its own is owed to its task; or it waits for an answer that is
      owed, with its task not done and nobody abandoning it. */
  ghost predicate DoesItsPart(r: Run, d: Dispatch) {
    if d.id in r.completions then d.id in r.published && !SettlesItsOwn(r, d)
    else AnswersItsAsker(r, d) && !TaskDone(r, d.task) && !Abandons(r, d)
  }

  lemma AskerIsOwed(r: Run, d: Dispatch)
    requires AnswersItsAsker(r, d)
    ensures Owes(r, d.task) && HasAsked(r, d.id)
  {
    var i :| 0 <= i < |r.undelivered| && RefusesDelivery(r.questions, r.undelivered[i], d);
    var k :| 0 <= k < |r.questions| && r.questions[k].submission == r.undelivered[i].submission && r.questions[k].dispatch == d.id;
  }

  lemma HandedInIsDone(r: Run, d: Dispatch)
    requires d in r.dispatches && d.id in r.completions
    ensures TaskDone(r, d.task)
  {
  }

  lemma SettledLowers(r: Run, s: Run, made: Stepped, members: nat)
    requires r.phaseKey in r.graph.phases && s == r.(undelivered := s.undelivered) && |s.undelivered| <= |r.undelivered|
    requires Lowers(s, made, members)
    ensures Lowers(r, made, members)
  {
    hide Tried, Waiting, MembersWithin;
    SamePhases(r, s);
    SameTried(r, s);
    SameWaiting(r, s, r.graph.phases[r.phaseKey].tasks);
  }

  lemma HandedInLowers(r: Run, spec: PhaseSpec, d: Dispatch, reading: Reading, members: nat)
    requires Carrying(r, spec, d, reading) && MembersWithin(r.graph, members) && GateOpens(r, spec, reading)
    requires d.id in r.completions && d.id in r.published && !SettlesItsOwn(r, d)
    ensures r.phaseKey in r.graph.phases && Lowers(r, CarriedStep(r, spec, d, reading), members)
  {
    hide Carrying, RunOk, NonePending, NoneOpen, InPhase, Stored, GraphOk, Reached, TaskDone, Owes, OwesExhausted, AnswersItsAsker, StillOwed,
         AttemptOpen, TaskAttempts, AnswerStep, AbortStep, GateStep, GateOpens, Lowers, MembersWithin, HasAsked, AttemptOver, Retry, AcceptedIds;
    CarryingMeans(r, spec, d, reading);
    PartsOfSelection(r);
    KeyIsDeclared(r);
    HandedInIsDone(r, d);
    if Owes(r, d.task) && OwesExhausted(r, d.task) {
      AnswerFindsNoneOpen(r, spec, d, reading);
      AnswerLowers(r, spec, d, reading, members);
    } else {
      var s := if Owes(r, d.task) then r.(undelivered := StillOwed(r.questions, r.undelivered, d)) else r;
      StillOwedIsLess(r.questions, r.undelivered, d);
      GateOpensStill(r, s, spec, reading);
      GateLowers(s, spec, d, reading, members);
      SettledLowers(r, s, GateStep(s, spec, d, reading), members);
    }
  }

  lemma KeyIsDeclared(r: Run)
    requires Reached(r)
    ensures r.phaseKey in r.graph.phases
  {
  }

  lemma GateOpensStill(r: Run, s: Run, spec: PhaseSpec, reading: Reading)
    requires s == r.(attempts := s.attempts, undelivered := s.undelivered)
    ensures GateOpens(s, spec, reading) <==> GateOpens(r, spec, reading)
  {
    hide Coverage.CoversEveryActiveTask, Coverage.ActivePhaseTaskIds, Coverage.AcceptedPhaseTasks;
  }

  lemma OwedLowers(r: Run, spec: PhaseSpec, d: Dispatch, reading: Reading, members: nat)
    requires Carrying(r, spec, d, reading) && MembersWithin(r.graph, members)
    requires d.id !in r.completions && AnswersItsAsker(r, d) && !TaskDone(r, d.task) && !AttemptOpen(r, d.id)
    requires !(d.id in r.aborts && TaskAttempts(r, d.task) < spec.maximumAttempts)
    ensures r.phaseKey in r.graph.phases && Lowers(r, CarriedStep(r, spec, d, reading), members)
  {
    hide Carrying, RunOk, NonePending, NoneOpen, InPhase, Stored, TaskDone, Owes, OwesExhausted, AnswersItsAsker, StillOwed,
         AttemptOpen, TaskAttempts, AnswerStep, AbortStep, WorkStep, Lowers, MembersWithin, HasAsked;
    AskerIsOwed(r, d);
    AnswerFindsNoneOpen(r, spec, d, reading);
    AnswerLowers(r, spec, d, reading, members);
  }

  /** Everybody a step may depend on does their part: members report no work that
      stops the others, the dispatch the step is about is done or can be answered,
      its phase can close, and a fan-out without members is given some. */
  ghost predicate Helped(r: Run, reading: Reading, members: nat) {
    && ReadingOk(r, reading) && !StopsFast(r) && r.phaseKey in r.graph.phases
    && var spec := r.graph.phases[r.phaseKey];
       match StepsAbout(r)
       case Some(d) => DoesItsPart(r, d) && (d.id in r.completions ==> GateOpens(r, spec, reading))
       case None => spec.tasks == [] ==> spec.fanOut && MakesMembers(reading, members)
  }

  lemma TurnsDoNotMatter(r: Run, c: Run, d: Dispatch)
    requires c == r.(attempts := c.attempts)
    ensures (AnswersItsAsker(c, d) <==> AnswersItsAsker(r, d)) && (TaskDone(c, d.task) <==> TaskDone(r, d.task))
    ensures StopsFast(c) <==> StopsFast(r)
  {
    assert ViewOf(c) == ViewOf(r);
  }

  /** The step about `d`, once ended turns are recorded. */
  lemma CarriedLowers(r: Run, c: Run, spec: PhaseSpec, d: Dispatch, reading: Reading, members: nat)
    requires c == CloseEnded(r) && Carrying(c, spec, d, reading) && MembersWithin(r.graph, members)
    requires DoesItsPart(r, d) && (d.id in r.completions ==> GateOpens(r, spec, reading)) && d in r.dispatches
    requires r.phaseKey in r.graph.phases && spec == r.graph.phases[r.phaseKey]
    ensures c.phaseKey in c.graph.phases && Lowers(c, CarriedStep(c, spec, d, reading), members)
  {
    hide CloseEnded, Carrying, MembersWithin, GateOpens, SettlesItsOwn, AnswersItsAsker, TaskDone, TaskAttempts, CarriedStep, Lowers, HasAsked,
         AttemptOpen, AttemptOver, StepsAbout, StopsFast;
    ClosingSettles(r);
    TurnsDoNotMatter(r, c, d);
    SettlingIgnoresTurns(r, c, d);
    if d.id in r.completions {
      GateOpensStill(r, c, spec, reading);
      HandedInLowers(c, spec, d, reading, members);
    } else {
      AskedIsOver(r, d);
      OwedLowers(c, spec, d, reading, members);
    }
  }

  lemma AskedIsOver(r: Run, d: Dispatch)
    requires d in r.dispatches && AnswersItsAsker(r, d)
    ensures !AttemptOpen(CloseEnded(r), d.id)
  {
    hide AnswersItsAsker, HasAsked, CloseEnded;
    AskerIsOwed(r, d);
    EndedTurnsAreRecorded(r, d.id);
  }

  /** A step of a run that is helped finishes it or leaves less to do. */
  lemma HelpedStepLowers(r: Run, reading: Reading, members: nat)
    requires RunOk(r) && MembersWithin(r.graph, members) && Helped(r, reading, members)
    ensures Lowers(r, StepIn(r, reading), members)
  {
    hide RunOk, MembersWithin, CloseEnded, Lowers, Stored, DoesItsPart, GateOpens, StopsFast, Carried, CarriedStep, PendingStep, FirstStep,
         NonePending, ReadingOk, AcceptedAreOver, CompletedAreOver, InPhase, NextKey, Settles;
    if !(r.closed && NextKey(r).None?) {
      var c, spec := CloseEnded(r), r.graph.phases[r.phaseKey];
      ClosingSettles(r);
      ClosingKeeps(r);
      ClosingKeepsReading(r, reading);
      SettlingIgnoresTurns(r, c, Dispatch([], [], [], 0));
      TurnsDoNotMatter(r, c, Dispatch([], [], [], 0));
      SameNext(r, c);
      OpenLowers(r, c, spec, reading, members);
      ClosingLeaves(r, c, StepIn(r, reading), members);
    } else {
      FinishedLowers(r, Stepped(r, Finished), members);
    }
  }

  lemma FinishedLowers(r: Run, made: Stepped, members: nat)
    requires r.phaseKey in r.graph.phases && made.outcome == Finished
    ensures Lowers(r, made, members)
  {
  }

  lemma ClosingLeaves(r: Run, c: Run, made: Stepped, members: nat)
    requires r.phaseKey in r.graph.phases && c == r.(attempts := c.attempts) && Lowers(c, made, members)
    ensures Lowers(r, made, members)
  {
    hide Tried, Waiting, MembersWithin;
    SamePhases(r, c);
    SameTried(r, c);
    SameWaiting(r, c, r.graph.phases[r.phaseKey].tasks);
  }

  lemma OpenLowers(r: Run, c: Run, spec: PhaseSpec, reading: Reading, members: nat)
    requires c == CloseEnded(r) && Settled(c) && ReadingOk(c, reading) && MembersWithin(r.graph, members) && Helped(r, reading, members)
    requires c == r.(attempts := c.attempts) && StepsAbout(c) == StepsAbout(r) && !(c.closed && NextKey(c).None?)
    requires spec == r.graph.phases[r.phaseKey] && !StopsFast(c)
    ensures Lowers(c, OpenStep(c, spec, reading), members)
  {
    hide RunOk, MembersWithin, CloseEnded, Lowers, DoesItsPart, GateOpens, StopsFast, Carried, CarriedStep, PendingStep, FirstStep,
         NonePending, ReadingOk, AcceptedAreOver, CompletedAreOver, InPhase, NextKey, Tried;
    PendingIsNoneTried(c, spec.tasks);
    if spec.fanOut && Pending(c, spec.tasks, 0).Some? {
      PendingLowers(c, spec, Pending(c, spec.tasks, 0).value, reading, members);
    } else {
      NothingPends(c);
      if Carried(ViewOf(c), c.dispatches).None? {
        CarriedMeans(ViewOf(c), c.dispatches);
        FirstLowers(c, spec, reading, members);
      } else {
        var d := Carried(ViewOf(c), c.dispatches).value;
        CarriedIsOnTop(c, d);
        OnTopIsStored(c, d);
        CarriedLowers(r, c, spec, d, reading, members);
      }
    }
  }

  lemma NothingPends(r: Run)
    requires r.phaseKey in r.graph.phases
    requires r.graph.phases[r.phaseKey].fanOut ==> Pending(r, r.graph.phases[r.phaseKey].tasks, 0).None?
    ensures NonePending(r)
  {
    hide Tried;
    PendingIsNoneTried(r, r.graph.phases[r.phaseKey].tasks);
  }

  // ----- rounds

  /** What arrives before a step, and what the step is told. */
  datatype Round = Round(arrivals: seq<Event>, reading: Reading)

  ghost predicate NoSteps(events: seq<Event>) { forall i :: 0 <= i < |events| ==> !events[i].Step? }

  function AnswersIn(events: seq<Event>): nat
    decreases |events|
  {
    if events == [] then 0 else (if events[0].AnswerQuestion? then 1 else 0) + AnswersIn(events[1..])
  }

  function AnswersGiven(rounds: seq<Round>): nat
    decreases |rounds|
  {
    if rounds == [] then 0 else AnswersIn(rounds[0].arrivals) + AnswersGiven(rounds[1..])
  }

  /** Rounds in which whatever is allowed may arrive, as long as each step up to the
      one that finishes the run is helped. */
  ghost predicate Cooperating(r: Run, rounds: seq<Round>, members: nat)
    decreases |rounds|
  {
    rounds == [] ||
    var s := After(r, rounds[0].arrivals);
    var made := StepIn(s, rounds[0].reading);
    && NoSteps(rounds[0].arrivals) && History(r, rounds[0].arrivals) && Helped(s, rounds[0].reading, members)
    && (made.outcome == Finished || Cooperating(made.run, rounds[1..], members))
  }

  /** Some step of the rounds answers that the run is finished. */
  ghost predicate FinishesIn(r: Run, rounds: seq<Round>)
    decreases |rounds|
  {
    rounds != [] &&
    var made := StepIn(After(r, rounds[0].arrivals), rounds[0].reading);
    made.outcome == Finished || FinishesIn(made.run, rounds[1..])
  }

  lemma ArrivalMakesNoTry(r: Run, e: Event)
    requires EventOk(r, e) && !e.Step?
    ensures forall task :: Tried(Apply(r, e), task) <==> Tried(r, task)
  {
    hide Tried, StepIn, ReadingOk, Stored, StaysAccepted, IsStored;
    if e.OtherRun? {
      forall task ensures Tried(Apply(r, e), task) <==> Tried(r, task) { StrangerIsNoTry(r, e.other, task); }
    } else {
      SameTried(r, Apply(r, e));
    }
  }

  lemma ArrivalLeaves(r: Run, e: Event, members: nat)
    requires r.phaseKey in r.graph.phases && EventOk(r, e) && !e.Step?
    ensures Apply(r, e).graph == r.graph && Apply(r, e).phaseKey == r.phaseKey
    ensures Left(Apply(r, e), members) == Left(r, members) + (if e.AnswerQuestion? then 1 else 0)
  {
    hide Tried, Waiting, EventOk, StepIn, PhasesAfter, Allotted;
    ArrivalMakesNoTry(r, e);
    var s := Apply(r, e);
    SamePhases(r, s);
    SameWaiting(r, s, r.graph.phases[r.phaseKey].tasks);
  }

  lemma {:induction false} ArrivalsLeave(r: Run, events: seq<Event>, members: nat)
    requires RunOk(r) && r.phaseKey in r.graph.phases && History(r, events) && NoSteps(events)
    ensures var s := After(r, events);
            RunOk(s) && s.graph == r.graph && s.phaseKey == r.phaseKey && Left(s, members) == Left(r, members) + AnswersIn(events)
    decreases |events|
  {
    hide RunOk, EventOk, Apply, Left;
    if events != [] {
      EventKeepsOk(r, events[0]);
      ArrivalLeaves(r, events[0], members);
      ArrivalsLeave(Apply(r, events[0]), events[1..], members);
    }
  }

  /** Rounds that outnumber what is left to do and the answers given finish the run. */
  lemma {:induction false} LeftIsDone(r: Run, rounds: seq<Round>, members: nat)
    requires RunOk(r) && r.phaseKey in r.graph.phases && MembersWithin(r.graph, members) && Cooperating(r, rounds, members)
    requires |rounds| > Left(r, members) + AnswersGiven(rounds)
    ensures FinishesIn(r, rounds)
    decreases |rounds|
  {
    hide RunOk, MembersWithin, After, History, Helped, StepIn, Left, NoSteps, AnswersIn;
    var s, reading := After(r, rounds[0].arrivals), rounds[0].reading;
    ArrivalsLeave(r, rounds[0].arrivals, members);
    HelpedStepLowers(s, reading, members);
    if StepIn(s, reading).outcome != Finished {
      HelpedIsRead(s, reading, members);
      StepKeepsOk(s, reading);
      LeftIsDone(StepIn(s, reading).run, rounds[1..], members);
    }
  }

  lemma HelpedIsRead(r: Run, reading: Reading, members: nat)
    requires Helped(r, reading, members)
    ensures ReadingOk(r, reading)
  {
  }

  lemma LeftIsBounded(r: Run, members: nat)
    requires r.phaseKey in r.graph.phases && MembersWithin(r.graph, members) && Reached(r) && GraphOk(r.graph)
    ensures Left(r, members) < |r.graph.order| * (members + 2) + |r.undelivered|
  {
    hide GraphOk, Stage, MembersWithin;
    StageIsBounded(r, members);
    RankIsFound(r.graph, r.phaseKey);
    AllottedGrows(PhasesAfter(r), |r.graph.order|, members);
    AllottedIsProduct(|r.graph.order|, members);
  }

  lemma RankIsFound(g: Graph, key: Key)
    requires GraphOk(g) && key in g.phases
    ensures 0 <= Rank(g, key) < |g.order|
  {
    hide TasksOk;
    assert key in g.order;
  }

  /** From every history, rounds in which everybody does their part finish the run
      once there is one for each answer, for each phase, and for each member and two
      more of every phase. */
  lemma CooperationFinishes(start: Run, events: seq<Event>, rounds: seq<Round>, members: nat)
    requires NewRun(start) && History(start, events)
    requires var r := After(start, events);
             && MembersWithin(r.graph, members) && Cooperating(r, rounds, members)
             && |rounds| >= |r.graph.order| * (members + 2) + |r.undelivered| + AnswersGiven(rounds)
    ensures FinishesIn(After(start, events), rounds)
  {
    hide NewRun, History, After, RunOk, MembersWithin, Cooperating, FinishesIn, Left, GraphOk, Reached;
    var r := After(start, events);
    AfterIsOk(start, events);
    PartsOfSelection(r);
    KeyIsDeclared(r);
    LeftIsBounded(r, members);
    LeftIsDone(r, rounds, members);
  }

  // ----- workers can always do their part

  lemma {:induction false} FirstSeenIgnoresWork(v: View, w: View, ds: seq<Dispatch>)
    requires w == v.(handedIn := w.handedIn)
    ensures FirstSeen(w, ds) == FirstSeen(v, ds)
  {
    if ds != [] { FirstSeenIgnoresWork(v, w, ds[..|ds| - 1]); }
  }

  /** Only current dispatches hand in. */
  ghost predicate CurrentHandIn(v: View, w: View, ds: seq<Dispatch>) {
    && w == v.(handedIn := w.handedIn) && v.handedIn <= w.handedIn
    && forall e :: e in ds && e.id in w.handedIn && e.id !in v.handedIn ==> e in Current(v, ds)
  }

  lemma WorkStaysBelow(v: View, w: View, ds: seq<Dispatch>, d: Dispatch, e: Dispatch)
    requires CurrentHandIn(v, w, ds) && d in Current(v, ds) && e in ds && e.task == d.task && e != d
    ensures !Below(v, d, e) ==> !Below(w, d, e)
    ensures Below(v, e, d) ==> Below(w, e, d)
  {
    hide Current;
    if e in Current(v, ds) {
      CurrentIsHeld(v, ds, e);
      CurrentIsHeld(v, ds, d);
    }
  }

  lemma HandingInStaysHeld(v: View, w: View, ds: seq<Dispatch>, d: Dispatch)
    requires CurrentHandIn(v, w, ds) && d in Current(v, ds)
    ensures Held(w, ds, d.task) == Some(d)
  {
    hide Current, CurrentHandIn, Below, Held, InPhase;
    SelectedAreTheWinners(v, ds, d);
    var i :| Wins(v, ds, i) && ds[i] == d;
    SameInPhase(v, w, ds);
    forall j | 0 <= j < |ds| && InPhase(w, ds[j]) && ds[j].task == d.task
      ensures !Below(w, d, ds[j]) && (j > i ==> Below(w, ds[j], d))
    {
      if ds[j] == d { NotBelowItself(v, d); NotBelowItself(w, d); } else { WorkStaysBelow(v, w, ds, d, ds[j]); }
    }
    assert Wins(w, ds, i);
    HeldWins(w, ds, d.task);
    WinnerIsUnique(w, ds, d.task, d, Held(w, ds, d.task).value);
  }

  lemma SameInPhase(v: View, w: View, ds: seq<Dispatch>)
    requires CurrentHandIn(v, w, ds)
    ensures forall d :: InPhase(w, d) <==> InPhase(v, d)
  {
  }

  lemma NotBelowItself(v: View, d: Dispatch)
    ensures !Below(v, d, d)
  {
  }

  lemma HandingInMovesNothing(v: View, w: View, ds: seq<Dispatch>)
    requires CurrentHandIn(v, w, ds)
    ensures Current(w, ds) == Current(v, ds)
  {
    hide CurrentHandIn;
    assert FirstSeen(w, ds) == FirstSeen(v, ds) by { SameButWork(v, w, ds); FirstSeenIgnoresWork(v, w, ds); }
    hide FirstSeen, Held;
    forall k | 0 <= k < |Current(v, ds)| ensures Current(w, ds)[k] == Current(v, ds)[k] {
      var d := Current(v, ds)[k];
      assert d in Current(v, ds);
      CurrentIsHeld(v, ds, d);
      HandingInStaysHeld(v, w, ds, d);
      CurrentIsAtItsTask(v, ds, k);
      assert Held(w, ds, FirstSeen(w, ds)[k]) == Some(Current(w, ds)[k]);
    }
  }

  lemma SameButWork(v: View, w: View, ds: seq<Dispatch>)
    requires CurrentHandIn(v, w, ds)
    ensures w == v.(handedIn := w.handedIn)
  {
  }

  lemma CurrentIsAtItsTask(v: View, ds: seq<Dispatch>, k: nat)
    requires k < |Current(v, ds)|
    ensures Current(v, ds)[k].task == FirstSeen(v, ds)[k]
  {
    assert Held(v, ds, FirstSeen(v, ds)[k]) == Some(Current(v, ds)[k]);
    HeldWins(v, ds, FirstSeen(v, ds)[k]);
  }

  /** What the workers of some stored dispatches can hand in and publish: everything
      but the work of one that waits for an answer it is owed. */
  lemma {:induction false} WorkersHandIn(r: Run, ds: seq<Dispatch>) returns (events: seq<Event>)
    requires forall d :: d in ds ==> Stored(r, d.id)
    ensures History(r, events) && NoSteps(events) && AnswersIn(events) == 0
    ensures var s := After(r, events);
            && s == r.(completions := s.completions, published := s.published)
            && (forall d :: d in ds && !AnswersItsAsker(r, d) ==> d.id in s.completions)
            && (forall d :: d in ds ==> d.id in s.published)
            && r.completions.Keys <= s.completions.Keys && r.published <= s.published
            && forall id :: id in s.completions && id !in r.completions ==> exists d :: d in ds && d.id == id && !AnswersItsAsker(r, d)
    decreases |ds|
  {
    hide AnswersItsAsker, Stored, EventOk, Apply, After, History, NoSteps, AnswersIn;
    if ds == [] {
      events := [];
      NothingArrives(r);
    } else {
      var d, rest := ds[0], ds[1..];
      assert ds == [d] + rest;
      var one := HandsIn(r, d);
      var two := one.(published := one.published + {d.id});
      forall e: Dispatch ensures (Stored(two, e.id) <==> Stored(r, e.id)) && (AnswersItsAsker(two, e) <==> AnswersItsAsker(r, e)) {
        WorkChangesNoAnswer(r, two, e);
      }
      var more := WorkersHandIn(two, rest);
      PublishIsAllowed(one, d.id);
      OneEvent(one, Publish(d.id), more);
      events := [Publish(d.id)] + more;
      if one != r {
        HandInIsAllowed(r, d);
        OneEvent(r, HandIn(d.id, false), events);
        events := [HandIn(d.id, false)] + events;
      }
    }
  }

  /** The worker of `d` hands in, unless it has or waits for an answer it is owed. */
  function HandsIn(r: Run, d: Dispatch): Run {
    if d.id in r.completions || AnswersItsAsker(r, d) then r else r.(completions := r.completions[d.id := false])
  }

  lemma NothingArrives(r: Run)
    ensures History(r, []) && NoSteps([]) && AnswersIn([]) == 0 && After(r, []) == r
  {
  }

  lemma PublishIsAllowed(r: Run, id: Id)
    ensures EventOk(r, Publish(id)) && Apply(r, Publish(id)) == r.(published := r.published + {id})
  {
  }

  lemma HandInIsAllowed(r: Run, d: Dispatch)
    requires Stored(r, d.id) && d.id !in r.completions
    ensures EventOk(r, HandIn(d.id, false)) && Apply(r, HandIn(d.id, false)) == r.(completions := r.completions[d.id := false])
  {
  }

  lemma WorkChangesNoAnswer(r: Run, s: Run, d: Dispatch)
    requires s == r.(completions := s.completions, published := s.published)
    ensures (Stored(s, d.id) <==> Stored(r, d.id)) && (AnswersItsAsker(s, d) <==> AnswersItsAsker(r, d))
  {
  }

  lemma OneEvent(r: Run, e: Event, more: seq<Event>)
    requires EventOk(r, e) && !e.Step? && !e.AnswerQuestion? && History(Apply(r, e), more) && NoSteps(more) && AnswersIn(more) == 0
    ensures History(r, [e] + more) && NoSteps([e] + more) && AnswersIn([e] + more) == 0
    ensures After(r, [e] + more) == After(Apply(r, e), more)
  {
    hide EventOk, Apply;
    assert ([e] + more)[1..] == more;
  }

  /** Nobody abandons a dispatch that waits for an answer, and its task is not done. */
  ghost predicate NobodyStuck(r: Run) {
    forall d :: d in Current(ViewOf(r), r.dispatches) && AnswersItsAsker(r, d) ==> !TaskDone(r, d.task) && d.id !in r.aborts
  }

  /** While nobody is stuck so, the workers of the current dispatches can make the
      next step find that the dispatch it is about has done its part. */
  lemma WorkersCanHelp(r: Run) returns (events: seq<Event>)
    requires RunOk(r) && NobodyStuck(r)
    ensures History(r, events) && NoSteps(events) && AnswersIn(events) == 0
    ensures var s := After(r, events); StepsAbout(s).Some? ==> DoesItsPart(s, StepsAbout(s).value)
  {
    hide RunOk, Current, AnswersItsAsker, TaskDone, After, History, NoSteps, Stored;
    var current := Current(ViewOf(r), r.dispatches);
    forall d | d in current ensures Stored(r, d.id) && d in r.dispatches { CurrentIsStored(r, d); MemberIsStored(r, d); }
    events := WorkersHandIn(r, current);
    var s := After(r, events);
    if StepsAbout(s).Some? {
      var d := StepsAbout(s).value;
      WorkIsOfCurrent(r, s);
      CarriedIsOnTop(s, d);
      WorkChangesNoAnswer(r, s, d);
      if AnswersItsAsker(r, d) { WaitingIsNotDone(r, s, d); }
    }
  }

  lemma MemberIsStored(r: Run, d: Dispatch)
    requires d in r.dispatches
    ensures Stored(r, d.id)
  {
    var i :| 0 <= i < |r.dispatches| && r.dispatches[i] == d;
  }

  /** `s` is `r` after current dispatches that wait for no answer handed in. */
  ghost predicate Worked(r: Run, s: Run) {
    && s == r.(completions := s.completions, published := s.published) && r.completions.Keys <= s.completions.Keys
    && forall id :: id in s.completions && id !in r.completions ==>
         exists d :: d in Current(ViewOf(r), r.dispatches) && d.id == id && !AnswersItsAsker(r, d)
  }

  lemma SameById(r: Run, d: Dispatch, e: Dispatch)
    requires IdsOk(r.dispatches) && d in r.dispatches && e in r.dispatches && d.id == e.id
    ensures d == e
  {
    var i :| 0 <= i < |r.dispatches| && r.dispatches[i] == d;
    var j :| 0 <= j < |r.dispatches| && r.dispatches[j] == e;
    SameIdentity(r.dispatches, i, j);
  }

  lemma WorkedParts(r: Run, s: Run)
    requires RunOk(r) && Worked(r, s)
    ensures IdsOk(r.dispatches) && AcceptedIds(s) == AcceptedIds(r)
  {
  }

  lemma WorkIsOfCurrent(r: Run, s: Run)
    requires RunOk(r) && Worked(r, s)
    ensures Current(ViewOf(s), s.dispatches) == Current(ViewOf(r), r.dispatches)
  {
    hide RunOk, IdsOk, Current, AnswersItsAsker, AcceptedIds;
    WorkedParts(r, s);
    var v, w := ViewOf(r), ViewOf(s);
    forall e | e in r.dispatches && e.id in w.handedIn && e.id !in v.handedIn ensures e in Current(v, r.dispatches) {
      var d :| d in Current(v, r.dispatches) && d.id == e.id;
      CurrentIsStored(r, d);
      SameById(r, d, e);
    }
    HandingInMovesNothing(v, w, r.dispatches);
  }

  lemma WaitingIsNotDone(r: Run, s: Run, d: Dispatch)
    requires RunOk(r) && Worked(r, s) && d in Current(ViewOf(r), r.dispatches) && AnswersItsAsker(r, d) && !TaskDone(r, d.task)
    ensures d.id !in s.completions && !TaskDone(s, d.task)
  {
    hide RunOk, IdsOk, Current, AnswersItsAsker, AcceptedIds;
    WorkedParts(r, s);
    CurrentIsStored(r, d);
    forall i | 0 <= i < |r.dispatches| && r.dispatches[i].task == d.task ensures r.dispatches[i].id !in s.completions {
      var e := r.dispatches[i];
      if e.id in s.completions {
        var f :| f in Current(ViewOf(r), r.dispatches) && f.id == e.id && !AnswersItsAsker(r, f);
        CurrentIsStored(r, f);
        SameById(r, f, e);
        CurrentIsHeld(ViewOf(r), r.dispatches, f);
        CurrentIsHeld(ViewOf(r), r.dispatches, d);
      }
    }
  }

  // ----- a new run that finishes

  /** The gate accepts and the phase closes. */
  function Accepting(freshId: Id): Reading {
    Reading(freshId, 1, NoUpstream, false, false, [Coverage.TaskRef(THE_TASK, 1)], false, true, NotAsked, false, Completed, false)
  }

  function TheRound(freshId: Id): Round { Round(HANDED_IN, Accepting(freshId)) }

  lemma TheGateAccepts(r: Run, id: Id)
    requires r.graph == THE_RUN.graph && r.phaseKey == "p" && r.accepted == [] && !Stored(r, id)
    ensures GateOpens(r, THE_PHASE, Accepting(id)) && ReadingOk(r, Accepting(id))
  {
    hide Covered, Stored;
    TheTaskIsCovered(r.(accepted := Accepting(id).acceptedAfter));
  }

  /** A new run of one task whose worker hands in and publishes before the first step
      cooperates, and that step finishes it. */
  lemma TheRunFinishes(id: Id)
    requires id != FIRST_TRY.id
    ensures NewRun(THE_RUN) && MembersWithin(THE_RUN.graph, 1) && Cooperating(THE_RUN, [TheRound(id)], 1)
    ensures FinishesIn(THE_RUN, [TheRound(id)])
  {
    hide RunOk, NewRun, History, After, StepIn, AtGate, TriesOf, ReadingOk, Accepting, GateOpens, StepsAbout, Stored;
    TheRunIsNew();
    TheWorkIsHandedIn();
    NewRunIsOk(THE_RUN);
    HistoryKeepsOk(THE_RUN, HANDED_IN);
    var r := After(THE_RUN, HANDED_IN);
    TheWorkIsAtItsGate(r);
    TheOthersAreFree(r, id);
    TheGateAccepts(r, id);
    TheWorkDoesItsPart(r);
    TheStepFinishes(r, Accepting(id));
  }

  lemma TheOthersAreFree(r: Run, id: Id)
    requires r.dispatches == [FIRST_TRY] && id != FIRST_TRY.id
    ensures !Stored(r, id)
  {
  }

  lemma TheWorkDoesItsPart(r: Run)
    requires r == THE_RUN.(completions := map[FIRST_TRY.id := false], published := {FIRST_TRY.id}) && AtGate(r, FIRST_TRY)
    ensures StepsAbout(r) == Some(FIRST_TRY) && DoesItsPart(r, FIRST_TRY) && !StopsFast(r)
  {
    hide RunOk, Carried, TaskDone, NonePending;
  }

  lemma TheStepFinishes(r: Run, reading: Reading)
    requires r.graph == THE_RUN.graph && r.phaseKey == "p" && AtGate(r, FIRST_TRY) && GateOpens(r, THE_PHASE, reading)
    ensures StepIn(r, reading).outcome == Finished
  {
    hide RunOk, Carried, GateOpens, GateStep, CloseEnded, Owes, NonePending;
    var c := CloseEnded(r);
    ClosingSettles(r);
    SameView(r, c);
    NonePendingSame(r, c);
    assert Owes(c, FIRST_TRY.task) <==> Owes(r, FIRST_TRY.task) by { SameOwed(r, c, FIRST_TRY.task); }
    GateOpensStill(r, c, THE_PHASE, reading);
    WorkGoesToItsGate(c, THE_PHASE, FIRST_TRY, reading);
    OpenGateCloses(c, THE_PHASE, FIRST_TRY, reading);
  }

  lemma SameOwed(r: Run, s: Run, task: Id)
    requires s.undelivered == r.undelivered
    ensures Owes(s, task) <==> Owes(r, task)
  {
  }
}
