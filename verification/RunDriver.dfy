/** The driver over mutable records: the stores a step reads and writes are the
    fields of one object, and each method changes them as its specification says. */
module RunDriver {
  import opened CodeUnits
  import opened Options
  import opened DispatchSelection
  import opened RunDriverModel
  import opened RunDriverInvariants
  import Steps = RunDriverSteps
  import Coverage = TaskCoverage

  class RunRecords {
    const runId: Id
    var graph: Graph
    var phaseKey: Key
    var closed: bool
    var dispatches: seq<Dispatch>
    var attempts: map<Id, Attempt>
    var completions: map<Id, bool>
    var questions: seq<Question>
    var published: set<Id>
    var returned: set<Id>
    var aborts: set<Id>
    var overrides: set<Id>
    var accepted: seq<Coverage.TaskRef>
    var answered: seq<Answer>
    var undelivered: seq<Answer>
    var carrying: set<Id>

    function State(): Run
      reads this
    {
      Run(runId, graph, phaseKey, closed, dispatches, attempts, completions, questions, published, returned, aborts, overrides,
          accepted, answered, undelivered, carrying)
    }

    /** The invariant of every history. */
    ghost predicate Valid()
      reads this
    {
      RunOk(State())
    }

    constructor (runId: Id, graph: Graph, phaseKey: Key)
      ensures GraphOk(graph) && phaseKey in graph.phases ==> Valid()
      ensures State() == Run(runId, graph, phaseKey, false, [], map[], map[], [], {}, {}, {}, {}, [], [], [], {})
    {
      this.runId, this.graph, this.phaseKey, closed := runId, graph, phaseKey, false;
      dispatches, attempts, completions, questions := [], map[], map[], [];
      published, returned, aborts, overrides := {}, {}, {}, {};
      accepted, answered, undelivered, carrying := [], [], [], {};
      new;
      if GraphOk(graph) && phaseKey in graph.phases { Steps.NewRunIsOk(State()); }
    }

    // ----- recording ended turns

    /** The four facts that end a turn, each filling in what the earlier ones left. */
    method EndedTurns() returns (ended: map<Id, Disposition>)
      ensures forall id :: EndedAs(State(), id) == if id in ended then Some(ended[id]) else None
    {
      ended := map[];
      var todo := completions.Keys;
      while todo != {}
        invariant todo <= completions.Keys
        invariant forall id :: id in ended <==> id in completions && id !in todo
        invariant forall id :: id in ended ==> ended[id] == Closed
        decreases |todo|
      {
        var id :| id in todo;
        todo := todo - {id};
        ended := ended[id := Closed];
      }
      for n := 0 to |questions|
        invariant forall id :: id in ended <==> id in completions || exists k :: 0 <= k < n && questions[k].dispatch == id
        invariant forall id :: id in ended ==> ended[id] == if id in completions then Closed else Suspended
      {
        if questions[n].dispatch !in ended {
          ended := ended[questions[n].dispatch := Suspended];
        }
      }
      assert forall id :: HasAsked(State(), id) <==> exists k :: 0 <= k < |questions| && questions[k].dispatch == id;
      ended := AddReturned(ended);
      ended := AddAccepted(ended);
    }

    /** The facts before an empty return. */
    function EndedEarly(id: Id): Option<Disposition>
      reads this
    {
      if id in completions then Some(Closed) else if HasAsked(State(), id) then Some(Suspended) else None
    }

    function EndedOrReturned(id: Id): Option<Disposition>
      reads this
    {
      if EndedEarly(id).Some? then EndedEarly(id) else if id in returned then Some(Fail) else None
    }

    method AddReturned(early: map<Id, Disposition>) returns (ended: map<Id, Disposition>)
      requires forall id :: EndedEarly(id) == if id in early then Some(early[id]) else None
      ensures forall id :: EndedOrReturned(id) == if id in ended then Some(ended[id]) else None
    {
      ended := early;
      var todo := returned;
      while todo != {}
        invariant todo <= returned
        invariant forall id :: id in ended <==> id in early || (id in returned && id !in todo)
        invariant forall id :: id in ended ==> ended[id] == if id in early then early[id] else Fail
        decreases |todo|
      {
        var id :| id in todo;
        todo := todo - {id};
        if id !in ended {
          ended := ended[id := Fail];
        }
      }
    }

    method AddAccepted(before: map<Id, Disposition>) returns (ended: map<Id, Disposition>)
      requires forall id :: EndedOrReturned(id) == if id in before then Some(before[id]) else None
      ensures forall id :: EndedAs(State(), id) == if id in ended then Some(ended[id]) else None
    {
      ended := before;
      var ids := AcceptedIds(State());
      for n := 0 to |dispatches|
        invariant forall id :: id in ended <==>
                    (id in before || exists k :: 0 <= k < n && dispatches[k].id == id && dispatches[k].runId == runId && dispatches[k].task in ids)
        invariant forall id :: id in ended ==> ended[id] == if id in before then before[id] else Closed
      {
        if dispatches[n].runId == runId && dispatches[n].task in ids && dispatches[n].id !in ended {
          ended := ended[dispatches[n].id := Closed];
        }
      }
      assert forall id :: OnAccepted(State(), id) <==>
        exists k :: 0 <= k < |dispatches| && dispatches[k].id == id && dispatches[k].runId == runId && dispatches[k].task in ids;
    }

    method CloseEndedAttempts()
      modifies this`attempts
      ensures State() == CloseEnded(old(State()))
    {
      hide EndedAs, CloseEnded;
      var ended := EndedTurns();
      ghost var was := State();
      StoredAreStored(was);
      RecordEnded(ended, StoredIds(State()));
      SameRecord(was, attempts, ended);
    }

    predicate IsOver(held: map<Id, Attempt>, id: Id) { id in held && held[id].disposition != Opened }

    /** Ends every listed turn of a stored dispatch that is not over yet. */
    method RecordEnded(ended: map<Id, Disposition>, stored: set<Id>)
      requires forall id :: id in stored ==> exists i :: 0 <= i < |dispatches| && dispatches[i].id == id
      modifies this`attempts
      ensures forall id :: id in attempts <==> id in old(attempts) || (id in ended && id in stored)
      ensures forall id :: id in attempts ==>
                attempts[id] == if id !in ended || IsOver(old(attempts), id) || id !in stored then old(attempts)[id]
                                else Attempt(TaskOf(dispatches, id), ended[id])
    {
      hide TaskOf;
      var todo := ended.Keys;
      while todo != {}
        invariant todo <= ended.Keys
        invariant forall id :: id in attempts <==> id in old(attempts) || (id in ended && id !in todo && id in stored)
        invariant forall id :: id in attempts ==>
                    attempts[id] == if id !in ended || id in todo || IsOver(old(attempts), id) || id !in stored then old(attempts)[id]
                                    else Attempt(TaskOf(dispatches, id), ended[id])
        decreases |todo|
      {
        var id :| id in todo;
        todo := todo - {id};
        if !IsOver(attempts, id) && id in stored {
          attempts := attempts[id := Attempt(TaskOf(dispatches, id), ended[id])];
        }
      }
    }

    lemma StoredAreStored(was: Run)
      ensures forall id :: id in StoredIds(was) <==> Stored(was, id)
      ensures forall id :: id in StoredIds(was) ==> exists i :: 0 <= i < |was.dispatches| && was.dispatches[i].id == id
    {
    }

    lemma SameRecord(was: Run, recorded: map<Id, Attempt>, ended: map<Id, Disposition>)
      requires forall id :: EndedAs(was, id) == if id in ended then Some(ended[id]) else None
      requires forall id :: id in recorded <==> id in was.attempts || (id in ended && id in StoredIds(was))
      requires forall id :: id in recorded ==>
                 recorded[id] == if id !in ended || AttemptOver(was, id) || id !in StoredIds(was) then was.attempts[id]
                                 else Attempt(TaskOf(was.dispatches, id), ended[id])
      ensures was.(attempts := recorded) == CloseEnded(was)
    {
      hide EndedAs, TaskOf;
      StoredAreStored(was);
    }

    // ----- making a dispatch

    method MakeDispatch(id: Id, task: Id, ordinal: nat, made: Outcome) returns (outcome: Outcome)
      modifies this`dispatches, this`attempts
      ensures State() == DispatchAttempt(old(State()), id, task, ordinal, made).run
      ensures outcome == DispatchAttempt(old(State()), id, task, ordinal, made).outcome
    {
      var refused := OtherOpen(State(), task, id);
      dispatches := dispatches + [Dispatch(id, runId, task, ordinal)];
      if refused {
        return Thrown(AttemptAlreadyOpen);
      }
      attempts := attempts[id := Attempt(task, Opened)];
      outcome := made;
    }

    method RetryMember(spec: PhaseSpec, d: Dispatch, reading: Reading) returns (outcome: Outcome)
      modifies this`dispatches, this`attempts
      ensures State() == Retry(old(State()), spec, d, reading).run
      ensures outcome == Retry(old(State()), spec, d, reading).outcome
    {
      hide DispatchAttempt, NextAttempt;
      if spec.tasks == [] {
        return Thrown(NoWork);
      }
      var attempt := NextAttempt(State(), reading);
      outcome := MakeDispatch(reading.freshId, RetryTask(spec, d.task), attempt, Retrying(attempt, reading.freshId));
    }

    // ----- the step

    /** One decision; on valid records and an allowed reading the records stay valid
        and the authority refuses no second open turn. */
    method Step(reading: Reading) returns (outcome: Outcome)
      modifies this
      ensures State() == StepIn(old(State()), reading).run
      ensures outcome == StepIn(old(State()), reading).outcome
      ensures old(Valid()) && ReadingOk(old(State()), reading) ==> Valid() && outcome != Thrown(AttemptAlreadyOpen)
    {
      ghost var was := State();
      outcome := Decide(reading);
      if RunOk(was) && ReadingOk(was, reading) { Steps.StepKeepsOk(was, reading); }
    }

    method Decide(reading: Reading) returns (outcome: Outcome)
      modifies this
      ensures State() == StepIn(old(State()), reading).run
      ensures outcome == StepIn(old(State()), reading).outcome
    {
      hide CloseEnded, Carried, CarriedStep, DispatchAttempt, StopsFast, Current, Pending;
      if phaseKey !in graph.phases {
        return Thrown(UnknownPhase);
      }
      if closed && NextKey(State()).None? {
        return Finished;
      }
      var spec := graph.phases[phaseKey];
      CloseEndedAttempts();
      var pending := if spec.fanOut then Pending(State(), spec.tasks, 0) else None;
      if pending.Some? {
        if StopsFast(State()) {
          return Rejected;
        }
        outcome := MakeDispatch(reading.freshId, spec.tasks[pending.value].id, pending.value + 1, Dispatched(reading.freshId));
        return;
      }
      var carried := Carried(ViewOf(State()), dispatches);
      if carried.None? {
        outcome := StartPhase(spec, reading);
      } else {
        outcome := Continue(spec, carried.value, reading);
      }
    }

    method StartPhase(spec: PhaseSpec, reading: Reading) returns (outcome: Outcome)
      requires phaseKey in graph.phases
      modifies this
      ensures State() == FirstStep(old(State()), spec, reading).run
      ensures outcome == FirstStep(old(State()), spec, reading).outcome
    {
      hide DispatchAttempt;
      if spec.tasks != [] {
        outcome := MakeDispatch(reading.freshId, spec.tasks[0].id, 1, Dispatched(reading.freshId));
        return;
      }
      if !spec.fanOut {
        return Thrown(NoWork);
      }
      match reading.fanOut
      case NoUpstream => outcome := AwaitingAgent(None);
      case NoMembers => outcome := PhaseClosed;
      case NotQuiescent => outcome := AwaitingAgent(None);
      case Members(tasks) =>
        graph := Materialised(graph, phaseKey, tasks);
        outcome := FannedOut(|tasks|);
    }

    method Continue(spec: PhaseSpec, d: Dispatch, reading: Reading) returns (outcome: Outcome)
      modifies this
      ensures State() == CarriedStep(old(State()), spec, d, reading).run
      ensures outcome == CarriedStep(old(State()), spec, d, reading).outcome
    {
      hide Retry, AnswerStep, WorkStep, TaskAttempts, TaskDone, Owes, OwesExhausted, StillOwed, AnswersItsAsker;
      var completed := d.id in completions;
      if !completed && d.id in aborts && TaskAttempts(State(), d.task) < spec.maximumAttempts {
        if AttemptOpen(State(), d.id) {
          attempts := attempts[d.id := Attempt(d.task, Refused)];
        }
        outcome := RetryMember(spec, d, reading);
        return;
      }
      var owed, exhausted, done := Owes(State(), d.task), OwesExhausted(State(), d.task), TaskDone(State(), d.task);
      var stillWorking := !done && !completed && AttemptOpen(State(), d.id);
      if owed && (exhausted || !done) && !stillWorking {
        outcome := CarryAnswer(spec, d, reading);
        return;
      }
      if owed && done && !exhausted {
        var refused := DeliverWith(d);
        if refused {
          return Thrown(DeliveryRefused);
        }
      }
      outcome := Await(spec, d, reading);
    }

    /** Delivers the answers for the task of `d` with `d`, until the records refuse one. */
    method DeliverWith(d: Dispatch) returns (refused: bool)
      modifies this`undelivered
      ensures undelivered == StillOwed(questions, old(undelivered), d)
      ensures refused == AnswersItsAsker(old(State()), d)
    {
      hide RefusesDelivery, StillOwed;
      assert StillOwed(questions, [], d) == [] by { NothingToDeliver(d); }
      var was, kept := undelivered, [];
      for n := 0 to |was|
        invariant undelivered == kept + was[n..]
        invariant StillOwed(questions, was, d) == kept + StillOwed(questions, was[n..], d)
        invariant forall i :: 0 <= i < n ==> !RefusesDelivery(questions, was[i], d)
      {
        assert was[n..][0] == was[n] && was[n..][1..] == was[n + 1..];
        DeliverOne(kept, was[n..], d);
        if RefusesDelivery(questions, was[n], d) {
          return true;
        }
        if was[n].task != d.task {
          kept := kept + [was[n]];
        }
        undelivered := kept + was[n + 1..];
      }
      refused := false;
    }

    lemma NothingToDeliver(d: Dispatch)
      ensures StillOwed(questions, [], d) == []
    {
    }

    lemma DeliverOne(kept: seq<Answer>, answers: seq<Answer>, d: Dispatch)
      requires answers != []
      ensures kept + StillOwed(questions, answers, d)
              == if RefusesDelivery(questions, answers[0], d) then kept + answers
                 else (if answers[0].task == d.task then kept else kept + [answers[0]]) + StillOwed(questions, answers[1..], d)
    {
    }

    method CarryAnswer(spec: PhaseSpec, d: Dispatch, reading: Reading) returns (outcome: Outcome)
      modifies this
      ensures State() == AnswerStep(old(State()), spec, d, reading).run
      ensures outcome == AnswerStep(old(State()), spec, d, reading).outcome
    {
      hide NextAttempt, RetryTask, Unowed, OtherOpen;
      if spec.tasks == [] {
        return Thrown(NoWork);
      }
      var attempt := NextAttempt(State(), reading);
      var task := if spec.fanOut then RetryTask(spec, d.task) else spec.tasks[0].id;
      carrying := carrying + {reading.freshId};
      outcome := MakeDispatch(reading.freshId, task, attempt, Dispatched(reading.freshId));
      if !outcome.Thrown? {
        undelivered := Unowed(undelivered, d.task);
      }
    }

    method Await(spec: PhaseSpec, d: Dispatch, reading: Reading) returns (outcome: Outcome)
      modifies this
      ensures State() == WorkStep(old(State()), spec, d, reading).run
      ensures outcome == WorkStep(old(State()), spec, d, reading).outcome
    {
      hide Retry, GateStep, TaskAttempts, HasAsked, AttemptOver;
      if d.id !in completions || d.id !in published {
        if HasAsked(State(), d.id) || !AttemptOver(State(), d.id) {
          return AwaitingAgent(Some(d.id));
        }
        if TaskAttempts(State(), d.task) < spec.maximumAttempts {
          outcome := RetryMember(spec, d, reading);
          return;
        }
        return Rejected;
      }
      outcome := Gate(spec, d, reading);
    }

    method Gate(spec: PhaseSpec, d: Dispatch, reading: Reading) returns (outcome: Outcome)
      modifies this
      ensures State() == GateStep(old(State()), spec, d, reading).run
      ensures outcome == GateStep(old(State()), spec, d, reading).outcome
    {
      hide Retry, TaskAttempts, Covered, RefusedStep, CloseStep;
      var tries := TaskAttempts(State(), d.task);
      if reading.publishRefused {
        return OutputRefused;
      }
      if reading.deliveryFails {
        return Thrown(CommandRefused);
      }
      accepted := reading.acceptedAfter;
      if !Covered(State(), spec) {
        return AwaitingAgent(None);
      }
      if reading.gateCommandFails {
        return Thrown(CommandRefused);
      }
      if !reading.gateAccepted {
        outcome := Refuse(tries, spec, d, reading);
        return;
      }
      if spec.approvalRequired && reading.approvalPending {
        return AwaitingApproval;
      }
      outcome := Close(tries, spec, d, reading);
    }

    method Refuse(tries: nat, spec: PhaseSpec, d: Dispatch, reading: Reading) returns (outcome: Outcome)
      modifies this
      ensures State() == RefusedStep(old(State()), tries, spec, d, reading).run
      ensures outcome == RefusedStep(old(State()), tries, spec, d, reading).outcome
    {
      hide Retry, Outstanding;
      if spec.iterateOnGate && tries < spec.maximumAttempts {
        outcome := RetryMember(spec, d, reading);
        return;
      }
      if spec.escalateOnExhaustion {
        var newest := NewestTryOf(dispatches, runId, d);
        var asked := Outstanding(State(), newest.id);
        if !asked {
          var question := Question(newest.id, Exhausted(newest.id, tries));
          if reading.ask != NotAsked && question !in questions {
            questions := questions + [question];
          }
          asked := reading.ask == Admitted;
        }
        if asked {
          return Escalated;
        }
      }
      outcome := GateRefused;
    }

    method Close(tries: nat, spec: PhaseSpec, d: Dispatch, reading: Reading) returns (outcome: Outcome)
      modifies this
      ensures State() == CloseStep(old(State()), tries, spec, d, reading).run
      ensures outcome == CloseStep(old(State()), tries, spec, d, reading).outcome
    {
      hide Retry;
      match reading.close
      case DecisionRequired => outcome := AwaitingApproval;
      case CloseFailed => outcome := Thrown(CommandRefused);
      case RejectedByPerson =>
        if spec.iterateOnApproval && tries < spec.maximumAttempts {
          outcome := RetryMember(spec, d, reading);
        } else {
          outcome := Rejected;
        }
      case Completed =>
        var next := NextKey(State());
        closed := true;
        if next.None? {
          return Finished;
        }
        if reading.startFails {
          return Thrown(CommandRefused);
        }
        phaseKey, closed := next.value, false;
        outcome := PhaseClosed;
    }
  }
}
