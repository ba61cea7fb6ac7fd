/** One run as its durable records show it, and the driver's step as a function
    on them. What a step learns from outside the records is a `Reading`. */
module RunDriverModel {
  import opened CodeUnits
  import opened Options
  import opened DispatchSelection
  import Coverage = TaskCoverage
  import PhaseOrder
  import PhaseWalk

  type Key = string

  datatype PhaseSpec = PhaseSpec(
    fanOut: bool, tasks: seq<Coverage.Task>, maximumAttempts: nat,
    iterateOnGate: bool, iterateOnApproval: bool, escalateOnExhaustion: bool, approvalRequired: bool)

  /** `order` is the phase sequence, `owner` the phase of every declared task. */
  datatype Graph = Graph(
    order: seq<Key>, nodes: seq<PhaseOrder.Phase>, phases: map<Key, PhaseSpec>, owner: map<Id, Key>, failFast: bool)

  datatype Disposition = Opened | Closed | Fail | Suspended | Refused

  datatype Attempt = Attempt(task: Id, disposition: Disposition)

  /** A worker names its own submissions; the driver names an exhaustion after the
      try that asked and the tries it took. */
  datatype SubmissionId = Asked(name: Text) | Exhausted(dispatch: Id, tries: nat)

  datatype Question = Question(dispatch: Id, submission: SubmissionId)

  datatype Answer = Answer(submission: SubmissionId, task: Id)

  datatype Run = Run(
    runId: Id, graph: Graph, phaseKey: Key, closed: bool,
    dispatches: seq<Dispatch>,       // stored by the broker, other runs' included
    attempts: map<Id, Attempt>,      // this run's record, by dispatch
    completions: map<Id, bool>,      // handed in, and whether it reports being blocked
    questions: seq<Question>,
    published: set<Id>, returned: set<Id>, aborts: set<Id>, overrides: set<Id>,
    accepted: seq<Coverage.TaskRef>,
    answered: seq<Answer>, undelivered: seq<Answer>,
    carrying: set<Id>)               // dispatches made to carry an answer

  datatype FanOut = NoUpstream | NoMembers | NotQuiescent | Members(tasks: seq<Coverage.Task>)

  datatype AskResult = Admitted | Stale | NotAsked

  datatype CloseResult = Completed | DecisionRequired | RejectedByPerson | CloseFailed

  /** What one step is told: the identity of a dispatch it may make, the lowest
      ordinal the phase's attempts leave free, and every other authority's verdict. */
  datatype Reading = Reading(
    freshId: Id, freeOrdinal: nat, fanOut: FanOut,
    publishRefused: bool, deliveryFails: bool, acceptedAfter: seq<Coverage.TaskRef>,
    gateCommandFails: bool, gateAccepted: bool, ask: AskResult,
    approvalPending: bool, close: CloseResult, startFails: bool)

  datatype Fault = UnknownPhase | NoWork | AttemptAlreadyOpen | CommandRefused | DeliveryRefused

  datatype Outcome =
    | Dispatched(dispatchId: Id)
    | Retrying(attempt: nat, dispatchId: Id)
    | AwaitingAgent(turn: Option<Id>)
    | AwaitingApproval
    | Escalated
    | GateRefused
    | Rejected
    | OutputRefused
    | FannedOut(members: nat)
    | PhaseClosed
    | Finished
    | Thrown(fault: Fault)

  datatype Stepped = Stepped(run: Run, outcome: Outcome)

  // ----- reading the records

  function AcceptedIds(r: Run): set<Id> { set i | 0 <= i < |r.accepted| :: r.accepted[i].id }

  function ViewOf(r: Run): View { View(r.runId, r.phaseKey, r.graph.owner, r.completions.Keys, AcceptedIds(r)) }

  predicate HasTurn(r: Run, id: Id, disposition: Disposition) {
    id in r.attempts && r.attempts[id].disposition == disposition
  }

  predicate AttemptOpen(r: Run, id: Id) { HasTurn(r, id, Opened) }

  /** Recorded as over; a turn without a record is unknown, not over. */
  predicate AttemptOver(r: Run, id: Id) { id in r.attempts && r.attempts[id].disposition != Opened }

  predicate HasAsked(r: Run, id: Id) { exists i :: 0 <= i < |r.questions| && r.questions[i].dispatch == id }

  predicate Stored(r: Run, id: Id) { exists i :: 0 <= i < |r.dispatches| && r.dispatches[i].id == id }

  /** A dispatch of this run for a task. */
  predicate Mine(r: Run, task: Id, d: Dispatch) { d.runId == r.runId && d.task == task }

  predicate Tried(r: Run, task: Id) { exists i :: 0 <= i < |r.dispatches| && Mine(r, task, r.dispatches[i]) }

  function CountIf(ds: seq<Dispatch>, p: Dispatch -> bool): nat {
    if ds == [] then 0 else CountIf(ds[..|ds| - 1], p) + (if p(ds[|ds| - 1]) then 1 else 0)
  }

  /** A person has answered something this dispatch asked for its task. */
  predicate WasAnswered(r: Run, d: Dispatch) {
    exists i :: 0 <= i < |r.questions| && r.questions[i].dispatch == d.id && Answer(r.questions[i].submission, d.task) in r.answered
  }

  function LastAnswered(r: Run, ds: seq<Dispatch>, task: Id): nat {
    if ds == [] then 0
    else
      var rest := LastAnswered(r, ds[..|ds| - 1], task);
      var d := ds[|ds| - 1];
      if Mine(r, task, d) && WasAnswered(r, d) && d.ordinal > rest then d.ordinal else rest
  }

  /** The ordinal from which a task's tries count. */
  function AnsweredOrdinal(r: Run, task: Id): nat { LastAnswered(r, r.dispatches, task) }

  predicate Spent(r: Run, task: Id, after: nat, d: Dispatch) {
    InPhase(ViewOf(r), d) && d.task == task && d.ordinal > after && !HasTurn(r, d.id, Suspended)
  }

  /** The tries that count against the ceiling. */
  function TaskAttempts(r: Run, task: Id): nat {
    var after := AnsweredOrdinal(r, task);
    CountIf(r.dispatches, d => Spent(r, task, after, d))
  }

  function HighestOrdinal(v: View, ds: seq<Dispatch>): nat {
    if ds == [] then 0
    else
      var rest := HighestOrdinal(v, ds[..|ds| - 1]);
      if InPhase(v, ds[|ds| - 1]) && ds[|ds| - 1].ordinal > rest then ds[|ds| - 1].ordinal else rest
  }

  function NextAttempt(r: Run, reading: Reading): nat {
    var next := HighestOrdinal(ViewOf(r), r.dispatches) + 1;
    if reading.freeOrdinal > next then reading.freeOrdinal else next
  }

  predicate Owes(r: Run, task: Id) { exists i :: 0 <= i < |r.undelivered| && r.undelivered[i].task == task }

  predicate OwesExhausted(r: Run, task: Id) {
    exists i :: 0 <= i < |r.undelivered| && r.undelivered[i].task == task && r.undelivered[i].submission.Exhausted?
  }

  function Unowed(answers: seq<Answer>, task: Id): seq<Answer> {
    if answers == [] then []
    else (if answers[0].task == task then [] else [answers[0]]) + Unowed(answers[1..], task)
  }

  /** The dispatch that put a submission to a person. */
  predicate AskedIt(questions: seq<Question>, submission: SubmissionId, id: Id) {
    exists i :: 0 <= i < |questions| && questions[i].submission == submission && questions[i].dispatch == id
  }

  /** The records refuse to deliver an answer by the very dispatch that asked. */
  predicate RefusesDelivery(questions: seq<Question>, a: Answer, d: Dispatch) {
    a.task == d.task && AskedIt(questions, a.submission, d.id)
  }

  predicate AnswersItsAsker(r: Run, d: Dispatch) {
    exists i :: 0 <= i < |r.undelivered| && RefusesDelivery(r.questions, r.undelivered[i], d)
  }

  /** What stays undelivered once the answers for the task of `d` were delivered by
      `d` in turn, up to the first one the records refuse. */
  function StillOwed(questions: seq<Question>, answers: seq<Answer>, d: Dispatch): seq<Answer> {
    if answers == [] || RefusesDelivery(questions, answers[0], d) then answers
    else (if answers[0].task == d.task then [] else [answers[0]]) + StillOwed(questions, answers[1..], d)
  }

  /** Handed in under some dispatch, or accepted. */
  predicate TaskDone(r: Run, task: Id) {
    (exists i :: 0 <= i < |r.dispatches| && r.dispatches[i].task == task && r.dispatches[i].id in r.completions)
    || task in AcceptedIds(r)
  }

  // ----- recording ended turns

  predicate OnAccepted(r: Run, id: Id) {
    exists i :: 0 <= i < |r.dispatches| && r.dispatches[i].id == id && r.dispatches[i].runId == r.runId
      && r.dispatches[i].task in AcceptedIds(r)
  }

  /** How a turn ended: a completion comes before a question, a question before an
      empty return, and that before the acceptance of its task. */
  function EndedAs(r: Run, id: Id): Option<Disposition> {
    if id in r.completions then Some(Closed)
    else if HasAsked(r, id) then Some(Suspended)
    else if id in r.returned then Some(Fail)
    else if OnAccepted(r, id) then Some(Closed)
    else None
  }

  function TaskOf(ds: seq<Dispatch>, id: Id): (task: Id)
    requires exists i :: 0 <= i < |ds| && ds[i].id == id
  {
    if ds[0].id == id then ds[0].task else TaskOf(ds[1..], id)
  }

  function StoredIds(r: Run): set<Id> { set i | 0 <= i < |r.dispatches| :: r.dispatches[i].id }

  function CloseEnded(r: Run): Run {
    r.(attempts := map id | id in r.attempts.Keys + StoredIds(r) && (id in r.attempts || EndedAs(r, id).Some?) ::
      if EndedAs(r, id).None? || AttemptOver(r, id) || !Stored(r, id) then r.attempts[id]
      else Attempt(TaskOf(r.dispatches, id), EndedAs(r, id).value))
  }

  // ----- making a dispatch

  predicate OtherOpen(r: Run, task: Id, id: Id) {
    exists other :: other in r.attempts && other != id && r.attempts[other] == Attempt(task, Opened)
  }

  /** Registers the dispatch, then opens its attempt, which the authority refuses
      while the task has another one open. */
  function DispatchAttempt(r: Run, id: Id, task: Id, ordinal: nat, made: Outcome): Stepped {
    var stored := r.(dispatches := r.dispatches + [Dispatch(id, r.runId, task, ordinal)]);
    if OtherOpen(r, task, id) then Stepped(stored, Thrown(AttemptAlreadyOpen))
    else Stepped(stored.(attempts := r.attempts[id := Attempt(task, Opened)]), made)
  }

  predicate Declares(tasks: seq<Coverage.Task>, id: Id) { exists i :: 0 <= i < |tasks| && tasks[i].id == id }

  /** The member a retry names, or the phase's first task when it finds none. */
  function RetryTask(spec: PhaseSpec, task: Id): Id
    requires spec.tasks != []
  {
    if Declares(spec.tasks, task) then task else spec.tasks[0].id
  }

  function Retry(r: Run, spec: PhaseSpec, d: Dispatch, reading: Reading): Stepped {
    if spec.tasks == [] then Stepped(r, Thrown(NoWork))
    else
      DispatchAttempt(r, reading.freshId, RetryTask(spec, d.task), NextAttempt(r, reading),
                      Retrying(NextAttempt(r, reading), reading.freshId))
  }

  // ----- the step

  function Pending(r: Run, tasks: seq<Coverage.Task>, from: nat): (at: Option<nat>)
    requires from <= |tasks|
    ensures at.Some? ==> from <= at.value < |tasks| && !Tried(r, tasks[at.value].id)
    ensures forall i :: from <= i < (if at.Some? then at.value else |tasks|) ==> Tried(r, tasks[i].id)
    decreases |tasks| - from
  {
    if from == |tasks| then None else if !Tried(r, tasks[from].id) then Some(from) else Pending(r, tasks, from + 1)
  }

  predicate StopsFast(r: Run) {
    && r.graph.failFast
    && (exists i :: 0 <= i < |r.dispatches| && InPhase(ViewOf(r), r.dispatches[i])
          && r.dispatches[i].id in r.completions && r.completions[r.dispatches[i].id])
    && (exists id :: id in r.completions && r.completions[id] && id !in r.overrides)
  }

  function PendingStep(r: Run, spec: PhaseSpec, at: nat, reading: Reading): Stepped
    requires at < |spec.tasks|
  {
    if StopsFast(r) then Stepped(r, Rejected)
    else DispatchAttempt(r, reading.freshId, spec.tasks[at].id, at + 1, Dispatched(reading.freshId))
  }

  function Materialised(g: Graph, key: Key, tasks: seq<Coverage.Task>): Graph
    requires key in g.phases
  {
    g.(phases := g.phases[key := g.phases[key].(tasks := tasks)],
       owner := g.owner + map i | 0 <= i < |tasks| :: tasks[i].id := key)
  }

  function FirstStep(r: Run, spec: PhaseSpec, reading: Reading): Stepped
    requires r.phaseKey in r.graph.phases
  {
    if spec.tasks != [] then DispatchAttempt(r, reading.freshId, spec.tasks[0].id, 1, Dispatched(reading.freshId))
    else if !spec.fanOut then Stepped(r, Thrown(NoWork))
    else
      match reading.fanOut
      case NoUpstream => Stepped(r, AwaitingAgent(None))
      case NoMembers => Stepped(r, PhaseClosed)
      case NotQuiescent => Stepped(r, AwaitingAgent(None))
      case Members(tasks) => Stepped(r.(graph := Materialised(r.graph, r.phaseKey, tasks)), FannedOut(|tasks|))
  }

  function AbortStep(r: Run, spec: PhaseSpec, d: Dispatch, reading: Reading): Stepped {
    var ended := if AttemptOpen(r, d.id) then r.(attempts := r.attempts[d.id := Attempt(d.task, Refused)]) else r;
    Retry(ended, spec, d, reading)
  }

  function AnswerStep(r: Run, spec: PhaseSpec, d: Dispatch, reading: Reading): Stepped {
    if spec.tasks == [] then Stepped(r, Thrown(NoWork))
    else
      var task := if spec.fanOut then RetryTask(spec, d.task) else spec.tasks[0].id;
      var carried := r.(carrying := r.carrying + {reading.freshId});
      var made := DispatchAttempt(carried, reading.freshId, task, NextAttempt(r, reading), Dispatched(reading.freshId));
      if made.outcome.Thrown? then made else made.(run := made.run.(undelivered := Unowed(r.undelivered, d.task)))
  }

  /** The carried dispatch, once it is known to exist. */
  function CarriedStep(r: Run, spec: PhaseSpec, d: Dispatch, reading: Reading): Stepped {
    if d.id !in r.completions && d.id in r.aborts && TaskAttempts(r, d.task) < spec.maximumAttempts then
      AbortStep(r, spec, d, reading)
    else if Owes(r, d.task) && (OwesExhausted(r, d.task) || !TaskDone(r, d.task))
            && !(!TaskDone(r, d.task) && d.id !in r.completions && AttemptOpen(r, d.id)) then
      AnswerStep(r, spec, d, reading)
    else if Owes(r, d.task) && TaskDone(r, d.task) && !OwesExhausted(r, d.task) then
      var settled := r.(undelivered := StillOwed(r.questions, r.undelivered, d));
      if AnswersItsAsker(r, d) then Stepped(settled, Thrown(DeliveryRefused)) else WorkStep(settled, spec, d, reading)
    else WorkStep(r, spec, d, reading)
  }

  function WorkStep(r: Run, spec: PhaseSpec, d: Dispatch, reading: Reading): Stepped {
    if d.id in r.completions && d.id in r.published then GateStep(r, spec, d, reading)
    else if HasAsked(r, d.id) || !AttemptOver(r, d.id) then Stepped(r, AwaitingAgent(Some(d.id)))
    else if TaskAttempts(r, d.task) < spec.maximumAttempts then Retry(r, spec, d, reading)
    else Stepped(r, Rejected)
  }

  predicate Covered(r: Run, spec: PhaseSpec) {
    Coverage.CoversEveryActiveTask(Coverage.ActivePhaseTaskIds(spec.tasks),
                                   Coverage.AcceptedPhaseTasks(r.accepted, r.graph.owner, r.phaseKey))
  }

  function GateStep(r: Run, spec: PhaseSpec, d: Dispatch, reading: Reading): Stepped {
    if reading.publishRefused then Stepped(r, OutputRefused)
    else if reading.deliveryFails then Stepped(r, Thrown(CommandRefused))
    else
      var delivered := r.(accepted := reading.acceptedAfter);
      if !Covered(delivered, spec) then Stepped(delivered, AwaitingAgent(None))
      else if reading.gateCommandFails then Stepped(delivered, Thrown(CommandRefused))
      else if !reading.gateAccepted then RefusedStep(delivered, TaskAttempts(r, d.task), spec, d, reading)
      else if spec.approvalRequired && reading.approvalPending then Stepped(delivered, AwaitingApproval)
      else CloseStep(delivered, TaskAttempts(r, d.task), spec, d, reading)
  }

  predicate Outstanding(r: Run, id: Id) {
    exists i :: 0 <= i < |r.questions| && r.questions[i].dispatch == id
      && forall j :: 0 <= j < |r.answered| ==> r.answered[j].submission != r.questions[i].submission
  }

  /** Asks a person once, on behalf of the member's newest try. */
  function AskForHelp(r: Run, d: Dispatch, tries: nat, reading: Reading): (Run, bool) {
    var newest := NewestOf(r.dispatches, r.runId, d);
    var question := Question(newest.id, Exhausted(newest.id, tries));
    if Outstanding(r, newest.id) then (r, true)
    else if reading.ask == NotAsked then (r, false)
    else if question in r.questions then (r, reading.ask == Admitted)
    else (r.(questions := r.questions + [question]), reading.ask == Admitted)
  }

  function RefusedStep(r: Run, tries: nat, spec: PhaseSpec, d: Dispatch, reading: Reading): Stepped {
    if spec.iterateOnGate && tries < spec.maximumAttempts then Retry(r, spec, d, reading)
    else if spec.escalateOnExhaustion then
      var asked := AskForHelp(r, d, tries, reading);
      Stepped(asked.0, if asked.1 then Escalated else GateRefused)
    else Stepped(r, GateRefused)
  }

  function NextKey(r: Run): Option<Key> { PhaseWalk.NextPhase(r.graph.order, r.graph.nodes, r.phaseKey) }

  function CloseStep(r: Run, tries: nat, spec: PhaseSpec, d: Dispatch, reading: Reading): Stepped {
    match reading.close
    case DecisionRequired => Stepped(r, AwaitingApproval)
    case RejectedByPerson =>
      if spec.iterateOnApproval && tries < spec.maximumAttempts then Retry(r, spec, d, reading) else Stepped(r, Rejected)
    case CloseFailed => Stepped(r, Thrown(CommandRefused))
    case Completed =>
      var closed := r.(closed := true);
      if NextKey(r).None? then Stepped(closed, Finished)
      else if reading.startFails then Stepped(closed, Thrown(CommandRefused))
      else Stepped(r.(phaseKey := NextKey(r).value, closed := false), PhaseClosed)
  }

  function OpenStep(r: Run, spec: PhaseSpec, reading: Reading): Stepped
    requires r.phaseKey in r.graph.phases
  {
    var pending := if spec.fanOut then Pending(r, spec.tasks, 0) else None;
    if pending.Some? then PendingStep(r, spec, pending.value, reading)
    else
      match Carried(ViewOf(r), r.dispatches)
      case None => FirstStep(r, spec, reading)
      case Some(d) => CarriedStep(r, spec, d, reading)
  }

  /** One decision of the driver. */
  function StepIn(r: Run, reading: Reading): Stepped {
    if r.phaseKey !in r.graph.phases then Stepped(r, Thrown(UnknownPhase))
    else if r.closed && NextKey(r).None? then Stepped(r, Finished)
    else OpenStep(CloseEnded(r), r.graph.phases[r.phaseKey], reading)
  }

  // ----- what happens between steps

  datatype Event =
    | Step(reading: Reading)
    | HandIn(dispatch: Id, blocked: bool)
    | Ask(dispatch: Id, name: Text)
    | Publish(dispatch: Id)
    | Return(dispatch: Id)
    | AnswerQuestion(question: Question, task: Id)
    | AbortTurn(dispatch: Id)
    | Accept(accepted: seq<Coverage.TaskRef>)
    | Override(dispatch: Id)
    | OtherRun(other: Dispatch)

  function Apply(r: Run, e: Event): Run {
    match e
    case Step(reading) => StepIn(r, reading).run
    case HandIn(id, blocked) => r.(completions := r.completions[id := blocked])
    case Ask(id, name) => r.(questions := r.questions + [Question(id, Asked(name))])
    case Publish(id) => r.(published := r.published + {id})
    case Return(id) => r.(returned := r.returned + {id})
    case AnswerQuestion(q, task) =>
      r.(answered := r.answered + [Answer(q.submission, task)], undelivered := r.undelivered + [Answer(q.submission, task)])
    case AbortTurn(id) => r.(aborts := r.aborts + {id})
    case Accept(accepted) => r.(accepted := accepted)
    case Override(id) => r.(overrides := r.overrides + {id})
    case OtherRun(d) => r.(dispatches := r.dispatches + [d])
  }

  predicate AcceptedIn(refs: seq<Coverage.TaskRef>, task: Id) { exists i :: 0 <= i < |refs| && refs[i].id == task }

  /** Acceptance is never withdrawn: a replaced assessment keeps its task. */
  ghost predicate StaysAccepted(r: Run, after: seq<Coverage.TaskRef>) {
    forall i :: 0 <= i < |r.accepted| ==> AcceptedIn(after, r.accepted[i].id)
  }

  /** Members are new tasks and supersede nothing. */
  ghost predicate NewTasks(g: Graph, tasks: seq<Coverage.Task>) {
    && (forall i :: 0 <= i < |tasks| ==> tasks[i].id !in g.owner && tasks[i].supersedes == [])
    && forall i, j :: 0 <= i < j < |tasks| ==> tasks[i].id != tasks[j].id
  }

  ghost predicate ReadingOk(r: Run, reading: Reading) {
    && !Stored(r, reading.freshId)
    && StaysAccepted(r, reading.acceptedAfter)
    && (reading.fanOut.Members? ==> NewTasks(r.graph, reading.fanOut.tasks))
  }

  /** What the records' owners allow: facts about stored dispatches only, one
      submission per name, one answer per question, fresh identities. */
  ghost predicate EventOk(r: Run, e: Event) {
    match e
    case Step(reading) => ReadingOk(r, reading)
    case HandIn(id, _) => Stored(r, id) && id !in r.completions
    case Ask(id, name) => Stored(r, id) && forall i :: 0 <= i < |r.questions| ==> r.questions[i].submission != Asked(name)
    case Publish(id) => true
    case Return(id) => true
    case AnswerQuestion(q, task) =>
      && q in r.questions
      && (forall i :: 0 <= i < |r.answered| ==> r.answered[i].submission != q.submission)
      && exists i :: 0 <= i < |r.dispatches| && r.dispatches[i].id == q.dispatch && Mine(r, task, r.dispatches[i])
    case AbortTurn(id) => true
    case Accept(accepted) => StaysAccepted(r, accepted)
    case Override(id) => true
    case OtherRun(d) => d.runId != r.runId && !Stored(r, d.id)
  }

  /** Events that happen one after another, each as its owner allows. */
  ghost predicate History(r: Run, events: seq<Event>)
    decreases |events|
  {
    events == [] || (EventOk(r, events[0]) && History(Apply(r, events[0]), events[1..]))
  }

  ghost function After(r: Run, events: seq<Event>): Run
    decreases |events|
  {
    if events == [] then r else After(Apply(r, events[0]), events[1..])
  }
}
