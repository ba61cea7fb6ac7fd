# Verified model of the orchestration core

This project models the parts of the repository whose correctness is about state that
changes over time, and proves properties of every run of them:

- **The reference control plane and its network** (`ControlPlane*`, `DeliveryNetwork*`,
  `Transport*`). Per repository binding the control plane keeps a gapless hash-linked
  envelope log, a command index, receipt chains that only grow, and a gapless hash-linked
  report log. A simulated network duplicates, delays, reorders, drops, partitions and
  revokes in front of it, and a transport composes the two.
- **The run driver** (`RunDriver*`, `DispatchSelection`, `TaskCoverage`, `PhaseOrder`,
  `PhaseWalk`). One decision per step over a run's durable records: which phase is
  next, which dispatch of a task is current, when a turn is over, when a member may try
  again, when an answer is carried, when a phase closes.
- **Session lines and budgets** (`Sessions`, `UriComponents`, `Budgets`, `BudgetCycles`).
- **Parsers and closure in configuration** (`JsonGrammar`, `StrictJson*`, `CanonicalJson`,
  `PromptTemplate`, `PhaseClosure`).

`Options` and `CodeUnits` hold what several of them share: optional values, UTF-16 texts,
their order and sorting.

## How the model is built

Code that changes state is a class whose methods are proved against functions on values:
`ControlPlane.ReferenceControlPlane`, `DeliveryNetwork.DeterministicControlPlaneSimulator`,
`Transport.InProcessControlPlaneTransport`, `RunDriver.RunRecords`,
`StrictJson.StrictJsonParser`, `Sessions.SessionLedger`, `BudgetCycles.RunnerBudgets`. The
properties are then lemmas about those functions, over all runs: `Run`, `RunSystem`,
`After` and `DispatchAll` apply a whole sequence of operations or events.

Digests and signatures are functions supplied in a configuration record; only
`ControlPlaneProofs.ReusedIdentityIsReplayOrRefusal` assumes the digest free of collisions.
Clocks and fresh identities are parameters. The driver's
SQLite stores are the fields of one record, and everything a step learns from another
authority (publication, gate evaluation, approval, closing, the free ordinal, whether a
question was admitted) is one `Reading`; what those authorities guarantee is written out
in `RunDriverModel.ReadingOk` and `RunDriverModel.EventOk`: identities are fresh,
acceptance is never withdrawn (packages/runtime/src/authority.ts:965-1003), the members a
fan-out makes are new tasks that supersede nothing (apps/senawa/src/fan-out-driver.ts:198),
each submission is named once and each question answered once, and only the driver names a
submission an exhaustion. That the work a gate judges is accepted is not assumed: it follows
from the coverage the step checks first (`RunDriverSteps.CoveredIsAccepted`).

## Results to set beside the code's own account

- **Order of a run.** A run covers its workflow exactly when the graph and the registry
  agree on which root comes first (`PhaseWalk.DefaultStartCovers`); with two roots they
  can disagree and a phase is never reached (`PhaseWalk.SecondRootIsMissed`).
- **A retry of accepted work is not awaited.** The code's comments expect a retry to be
  what the phase waits for next (apps/senawa/src/advance-run.ts:1858-1859). A retry becomes
  the current dispatch of its task exactly when the dispatch the step was about has not
  handed in, or its work is neither published nor accepted
  (`RunDriverRetries.RetryTakesOverUnfinishedWork`). After a refused gate it does not until
  it hands in: the next step stands on the accepted dispatch again and never waits for the
  retry (`RunDriverRetries.RetryOfAcceptedWorkIsNotAwaited`), so steps in a row under a gate
  that keeps refusing make all tries the ceiling allows, wait for no agent of any of them,
  and then ask a person or give up (`RunDriverRetries.RefusedGateSpendsTheAllowance`).
  `RunDriverRetries.SecondTryIsNeverAwaited` is such a history of a new run. A retry that
  hands in is current at once, its ordinal being the highest
  (`RunDriverRetries.RetryTakesOverOnceHandedIn`); in general the newest dispatch of a task
  is current exactly when it handed in, its task is not accepted, or no dispatch of the task
  handed in (`RunDriverRetries.NewestIsCurrent`).
- **An answer that arrives after the work.** A done task's answers are marked delivered with
  its current dispatch, which the records refuse for the very dispatch that asked
  (packages/storage-sqlite/migrations/001-baseline.sql:302). The step then throws, exactly
  under the condition in `RunDriverOutcomes.DeliveryIsRefusedExactly`, and every further
  step throws too (`RunDriverOutcomes.RefusedDeliveryStops`). A new run gets there by asking,
  handing in and being answered (`RunDriverOutcomes.AnsweredAfterHandingInStops`).
- **A run that is helped finishes.** The code's comments tell of live runs that waited for
  ever. From every history, rounds in which each step finds its dispatch handed in and
  published and no answer owed to its own asker, and in which gates accept and phases close,
  finish the run, whatever else arrives between the steps, within a number of rounds that
  the records give (`RunDriverProgress.CooperationFinishes`). The workers can do their part
  from every state in which no task that is done, and no dispatch a person abandons, waits
  for an answer to its own question (`RunDriverProgress.WorkersCanHelp`).
- **The reported turn.** It is the dispatch's place in its conversation exactly when the
  line's latest conversation is absent, or neither spent nor recorded for other inputs
  (`Sessions.TurnIsPositionUnlessRestarted`); any other dispatch opens a new conversation
  and reports the turn it would have had in the old one
  (`Sessions.RenewalReportsTheOldTurn`).
- **Budgets are granted to a scope the runner does not list yet.** Additions over two
  cycles equal the one-shot total exactly under the condition in
  `Budgets.AdditionsConcatenate`. The SQLite runner reads its scopes from the table the
  context broker also writes (packages/storage-sqlite/src/index.ts:7512,
  packages/storage-sqlite/src/index.ts:12348-12417). A task is granted its budgets exactly
  when some cycle presents it that configures the runner or finds no scope listed for it
  (`BudgetCycles.GrantedExactly`), so every listed task is granted exactly when every one
  registered there is presented by such a cycle (`BudgetCycles.ListedAreGrantedExactly`).
  `BudgetCycles.RegisteredScopeIsPassedOver` registers one between two cycles, which is
  passed over, and one before the configuring cycle, which is granted.
- **One open turn per task.** The authority's refusal of a second open turn is never met
  (`RunDriverSteps.StepKeepsOk`): every path that dispatches first finds the task's turns
  over, the answer to an exhausted member included.

## Model

| member | source | states |
|---|---|---|
| `ControlPlane.ReferenceControlPlane.Register` | apps/control-plane/src/authority.ts:167-206 | Registration yields the state the specification gives: a fresh empty binding under both indexes, or no change and an error for a clash. |
| `ControlPlane.ReferenceControlPlane.AcceptCommand` | apps/control-plane/src/authority.ts:235-349 | The method on two shared maps ends in exactly the specified plane and answer: sealed envelope, replay or a refusal. |
| `ControlPlane.ReferenceControlPlane.RecordDelivery` | apps/control-plane/src/authority.ts:351-389 | Delivering a sequence returns its receipt chain, adding the delivery entry the first time only. |
| `ControlPlane.ReferenceControlPlane.AcceptReport` | apps/control-plane/src/authority.ts:391-475 | Reports are acknowledged, replayed or refused as specified, writing every candidate chain in turn. |
| `ControlPlane.ReferenceControlPlane.CandidatesExtend` | apps/control-plane/src/authority.ts:437-445 | The loop accepts exactly when every candidate extends the chain held before the report. |
| `ControlPlane.ReferenceControlPlane.WriteCandidates` | apps/control-plane/src/authority.ts:443-445 | Candidates are written in order, a later one for the same command replacing an earlier one. |
| `ControlPlane.ChainExtendsCheck` | apps/control-plane/src/authority.ts:595-630 | The comparison loop decides whether the candidate's entries digest correctly and begin with the current chain. |
| `ControlPlane.ReferenceControlPlane.Revoke` | apps/control-plane/src/authority.ts:510-515 | Revocation marks the one named binding, in both indexes. |
| `ControlPlaneProofs.StepKeepsOk` | apps/control-plane/src/authority.ts:114-205 | Every operation keeps gapless hash-linked logs, the bijection of commands, chains and envelopes and agreeing indexes, only adds to what is recorded, and no delivery throws. |
| `ControlPlaneProofs.EveryReachablePlaneIsOk` | apps/control-plane/src/authority.ts:138-165 | All of that holds in every state reachable from an empty control plane. |
| `ControlPlaneProofs.RunKeepsOk` | apps/control-plane/src/authority.ts:235-515 | Over any sequence of operations from any such state, the invariant holds and everything recorded stays. |
| `ControlPlaneProofs.DeliveryOutcomeOf` | apps/control-plane/src/authority.ts:351-388 | Delivery is refused for expiry, revocation or an unknown sequence and for nothing else; any other returns the recorded chain, of at least two entries, headed by the acceptance evidence of its own envelope, and where the chain held only that entry before, the second is the delivery evidence of that envelope. |
| `ControlPlaneProofs.WriteChainsEffect` | apps/control-plane/src/authority.ts:437-445 | After the candidates are written each command holds its old chain or one of the candidates that name it. |
| `ControlPlaneProofs.WrittenChainsExtend` | apps/control-plane/src/authority.ts:437-445 | Even when one report names a command twice, every written chain extends the one held before the report. |
| `ControlPlaneProofs.ReceiptChainsOnlyGrow` | apps/control-plane/src/authority.ts:362-388 | In every run an earlier chain is a prefix of every later one, and the receipt at position 1 never changes once present. |
| `ControlPlaneProofs.DeliveriesReturnOneReceipt` | apps/control-plane/src/authority.ts:362-388 | Any two deliveries of an envelope, however far apart, return the same receipt. |
| `ControlPlaneProofs.RefusalsChangeNothing` | apps/control-plane/src/authority.ts:559-575 | Refusals, replays and thrown errors leave the whole plane unchanged, a conflict on the last of many candidates included. |
| `ControlPlaneProofs.StepIsLocal` | apps/control-plane/src/authority.ts:235-515 | An operation changes no binding but the one it addresses. |
| `ControlPlaneProofs.RevokedIsFrozen` | apps/control-plane/src/authority.ts:510-514 | A revoked binding is identical in every later state. |
| `ControlPlaneProofs.CommandReplayIsIdempotent` | apps/control-plane/src/authority.ts:253-279 | A command accepted once gets its very envelope back at any later time before revocation, past its expiry too, without change. |
| `ControlPlaneProofs.ReusedIdentityIsReplayOrRefusal` | apps/control-plane/src/authority.ts:253-279 | With a collision-free digest a recorded identity is accepted again only for the recorded submission; anything else is refused. |
| `ControlPlaneProofs.ReportReplayIsIdempotent` | apps/control-plane/src/authority.ts:420-430 | A replayed report gets its first acknowledgement again and changes nothing. |
| `DeliveryNetwork.DeterministicControlPlaneSimulator.Enqueue` | apps/control-plane/src/simulator.ts:53-66 | Enqueueing ends in the specified queue and schedule and returns the frames it added. |
| `DeliveryNetwork.DeterministicControlPlaneSimulator.Reorder` | apps/control-plane/src/simulator.ts:88-99 | Reordering ends in the named order or throws without change. |
| `DeliveryNetwork.DeterministicControlPlaneSimulator.ReleaseCanonicalFrame` | apps/control-plane/src/simulator.ts:202-211 | A pair leaves the schedule exactly when no queued frame carries it any more. |
| `DeliveryNetwork.DeterministicControlPlaneSimulator.Poll` | apps/control-plane/src/simulator.ts:147-178 | The pass over the shrinking queue ends in the specified network, plane and results. |
| `DeliveryNetworkProofs.TakeDueIsFilter` | apps/control-plane/src/simulator.ts:147-178 | A pass delivers the first `limit` due frames in queue order; what remains is the rest of the queue in its order, without the stale frames met before it stopped. |
| `DeliveryNetworkProofs.EnqueueAllCovers` | apps/control-plane/src/simulator.ts:53-66 | After enqueueing every envelope past the cursor has a queued frame, dropped ones included. |
| `DeliveryNetworkProofs.ReleasingKeepsIndex` | apps/control-plane/src/simulator.ts:202-211 | Removing any frame keeps the schedule equal to the pairs queued. |
| `DeliveryNetworkProofs.ReorderIsPermutation` | apps/control-plane/src/simulator.ts:88-99 | An accepted reorder permutes the queue. |
| `DeliveryNetworkProofs.DueFramesHaveEnvelopes` | apps/control-plane/src/simulator.ts:160-170 | A poll never meets a frame that is no longer canonical. |
| `DeliveryNetworkProofs.SystemStepKeepsOk` | apps/control-plane/src/simulator.ts:53-211 | Every operation of control plane or network keeps the schedule equal to the queued pairs and every queued frame backed by an envelope. |
| `DeliveryNetworkProofs.EveryReachableSystemIsOk` | apps/control-plane/src/simulator.ts:33-51 | That holds in every reachable state of the composed system. |
| `Transport.InProcessControlPlaneTransport.Enrol` | apps/control-plane/src/transport.ts:33-42 | Construction registers the binding's revocation epoch and yields a transport, or throws and leaves the simulator as it was when another epoch is registered. |
| `Transport.InProcessControlPlaneTransport.ReceiveCommands` | apps/control-plane/src/transport.ts:56-87 | The method on the live simulator and control plane yields the specified commands and state. |
| `Transport.InProcessControlPlaneTransport.SendReport` | apps/control-plane/src/transport.ts:89-118 | A report past the transport's checks counts as sent; only an acknowledged one is recorded as acknowledged. |
| `TransportModel.ReceiveIsSound` | apps/control-plane/src/transport.ts:56-87 | Receiving never returns anything at or below the cursor, expired, revoked or without its recorded receipt. |
| `TransportModel.ReceiveIsComplete` | apps/control-plane/src/transport.ts:56-87 | On a connected, unrevoked binding whose due frames fit the limit, every unexpired sequence past the cursor that had an available frame or none is returned. |
| `TransportModel.NothingIsReceivedAfterRevocation` | apps/control-plane/src/transport.ts:56-87 | Once a binding is revoked no receive in any later state returns a delivery. |
| `TransportModel.RedeliveryIsIdentical` | apps/control-plane/src/transport.ts:77-86 | Two receives of one envelope give the same envelope and the same receipt whatever happened in between. |
| `TransportModel.PollIsSound` | apps/control-plane/src/simulator.ts:147-178 | Every result of a poll is a due frame past the cursor with its recorded receipt. |
| `TransportModel.PollIsComplete` | apps/control-plane/src/simulator.ts:147-178 | With room for every due frame, none with an unexpired envelope is left out. |
| `PhaseOrder.PhaseSequence` | apps/senawa/src/advance-run.ts:1002-1018 | The splicing loop returns the keys of the specified order. |
| `PhaseOrder.OrderIsPermutation` | apps/senawa/src/advance-run.ts:1002-1018 | The order holds every declared phase exactly as often as declared, cyclic workflows included. |
| `PhaseOrder.SequenceIsLeastTopological` | apps/senawa/src/advance-run.ts:991-1018 | The fallback is never taken exactly when a topological order exists; the result is then the one that comes first by registry position. |
| `PhaseOrder.FallbackMeansDeadlock` | apps/senawa/src/advance-run.ts:1010-1012 | The fallback is taken exactly when some declared phases each need one of them. |
| `PhaseWalk.WalkCoversFromTheHead` | apps/senawa/src/advance-run.ts:976-989 | Following the successor visits the rest of the order, hence every phase once exactly when the walk starts at its head. |
| `PhaseWalk.DefaultStartCovers` | apps/senawa/src/authored-run.ts:173-190 | Starting at the graph's first root covers the workflow exactly when it is the registry's first root. |
| `PhaseWalk.SingleRootIsCovered` | apps/senawa/src/authored-run.ts:173-190 | With one root the default start visits every phase once, in a topological order when no phases wait on each other. |
| `PhaseWalk.SecondRootIsMissed` | apps/senawa/src/authored-run.ts:177-181 | Two roots in opposite orders: the walk never reaches one of them. |
| `DispatchSelection.CurrentPhaseDispatches` | apps/senawa/src/advance-run.ts:1828-1872 | The map grown by the loop holds, per dispatched task, the specified dispatch in first-seen order. |
| `DispatchSelection.SelectedAreTheWinners` | apps/senawa/src/advance-run.ts:1851-1870 | Exactly one dispatch of each dispatched task is selected: the maximum under handed in (on accepted tasks), then ordinal, then storage position. |
| `DispatchSelection.SelectionIgnoresStorageOrder` | apps/senawa/src/advance-run.ts:1850-1871 | No reordering of the stored dispatches changes which one of a task is selected, exactly when one dispatch of the task is on top. |
| `DispatchSelection.SelectionIsStable` | apps/senawa/src/advance-run.ts:1850-1871 | With distinct ordinals the same dispatch is selected from every rearrangement. |
| `DispatchSelection.CarriedMeans` | apps/senawa/src/advance-run.ts:419-426 | A step is about a current dispatch, and about one that handed in only when every current one has. |
| `DispatchSelection.NewestTryOf` | apps/senawa/src/advance-run.ts:1809-1826 | The reduction returns a dispatch of the carried task with the highest ordinal, the carried one when none is higher. |
| `TaskCoverage.CoverageComparesTaskSets` | apps/senawa/src/advance-run.ts:1735-1777 | The sorted pointwise comparison holds exactly when accepted and unsuperseded tasks agree as multisets. |
| `TaskCoverage.CoveredPhaseIsAccepted` | apps/senawa/src/advance-run.ts:1752-1762 | A covered phase has an acceptance for every unsuperseded task and for no other task of the phase. |
| `RunDriver.RunRecords.CloseEndedAttempts` | apps/senawa/src/advance-run.ts:1334-1401 | The loops over completions, questions, returns and dispatches leave exactly the specified record. |
| `RunDriver.RunRecords.Step` | apps/senawa/src/advance-run.ts:269-970 | One step of the driver over mutable records ends in the specified state with the specified outcome; on valid records it leaves them valid and is never refused a second open turn. |
| `RunDriver.RunRecords.Continue` | apps/senawa/src/advance-run.ts:515-657 | The abort and answer branches, the refusal to deliver an answer by its own asker included, and what they leave to the rest of the step. |
| `RunDriver.RunRecords.DeliverWith` | apps/senawa/src/advance-run.ts:610-617 | Answers are marked delivered in turn until the records refuse one; what was delivered before it stays delivered. |
| `RunDriver.RunRecords.Gate` | apps/senawa/src/advance-run.ts:713-969 | Publication, delivery, coverage, gate, approval and closing in the code's order. |
| `RunDriver.RunRecords.Refuse` | apps/senawa/src/advance-run.ts:851-907 | A refused gate retries within the ceiling, asks a person once, or stays refused. |
| `RunDriver.RunRecords.MakeDispatch` | apps/senawa/src/advance-run.ts:319-330 | A dispatch is stored before its attempt is opened, and stays stored when the opening is refused. |
| `RunDriverSteps.StepKeepsOk` | packages/runtime/src/authority.ts:1284-1309 | Every step keeps all run invariants and is never refused for opening a second turn on a task. |
| `RunDriverSteps.HistoryKeepsOk` | apps/senawa/src/advance-run.ts:190-206 | The invariants hold after any sequence of steps, submissions, answers, aborts, acceptances and dispatches of other runs. |
| `RunDriverSteps.PendingStepKeeps` | apps/senawa/src/advance-run.ts:336-408 | First dispatches of a fan-out take one ordinal per member position, before any retry. |
| `RunDriverSteps.FirstStepKeeps` | apps/senawa/src/advance-run.ts:435-470 | A phase's first dispatch, or the making of its members, keeps the invariants. |
| `RunDriverSteps.AbortKeeps` | apps/senawa/src/advance-run.ts:515-557 | Abandoning a live turn ends it before the replacement opens. |
| `RunDriverSteps.AnswerFindsNoneOpen` | apps/senawa/src/advance-run.ts:559-618 | Whenever an answer is carried, no turn of its task is open, an exhausted member's included. |
| `RunDriverSteps.AnswerKeeps` | apps/senawa/src/advance-run.ts:618-657 | The dispatch that carries an answer is paid for by the answers it delivers. |
| `RunDriverSteps.CoveredIsAccepted` | apps/senawa/src/advance-run.ts:779-783 | Once a phase is covered the task of every dispatch it stands on is accepted, so a gate only ever judges accepted work. |
| `RunDriverSteps.DeliveryStopsAtItsAsker` | apps/senawa/src/advance-run.ts:610-617 | The answers of the task before the first refused one are delivered, that one and all others stay owed. |
| `RunDriverSteps.GateKeeps` | apps/senawa/src/advance-run.ts:765-969 | Gate and approval retries, escalation and closing keep the invariants. |
| `RunDriverSteps.NewRunIsOk` | apps/senawa/src/authored-run.ts:173-190 | A freshly instantiated run, with or without its first dispatch, satisfies them. |
| `RunDriverProofs.AttemptCeiling` | apps/senawa/src/advance-run.ts:506-514 | In every history a task holds at most (answers + 1) * (allowance + 1) - 1 unsuspended dispatches, and at most its allowance when nobody answered it. |
| `RunDriverProofs.UnaskedCeiling` | apps/senawa/src/advance-run.ts:498-514 | A task that asked nothing and was answered nothing never holds more dispatches than its allowance, over all retry paths together. |
| `RunDriverProofs.OrdinalsAndTurnsAreUnique` | apps/senawa/src/advance-run.ts:479-497 | In every history dispatches of one phase have distinct ordinals and a task has at most one open turn. |
| `RunDriverProofs.SelectionIsDetermined` | apps/senawa/src/advance-run.ts:1828-1872 | So in every history the current dispatch of a task does not depend on storage order. |
| `RunDriverProofs.EndedTurnsAreRecorded` | apps/senawa/src/advance-run.ts:1341-1384 | After recording, no dispatch with a completion, question, return or accepted task is open; precedence is completion, question, return, acceptance; endings and everything else stay. |
| `RunDriverProofs.RecordingIsIdempotent` | apps/senawa/src/advance-run.ts:1371-1401 | Recording ended turns again records nothing. |
| `RunDriverProofs.EndingsAreFinal` | apps/senawa/src/advance-run.ts:525-532 | No later event rewrites an ending or forgets a dispatch or question, and only a turn that asked is suspended. |
| `RunDriverOutcomes.SuccessorStartsWhenPhaseIsDone` | apps/senawa/src/advance-run.ts:777-969 | The phase changes only in a closing step, only to the successor, and only when every current dispatch handed in, the accepted tasks are exactly the unsuperseded ones, the gate was accepted and no approval is owed. |
| `RunDriverOutcomes.WaitIsJustified` | apps/senawa/src/advance-run.ts:659-705 | A step waits for a turn only when it asked something or no record says it is over. |
| `RunDriverOutcomes.DeliveryIsRefusedExactly` | apps/senawa/src/advance-run.ts:610-617 | A step is refused a delivery exactly when it is about a dispatch no person abandons whose done task is owed an answer to a question of that dispatch, none of them for an exhaustion. |
| `RunDriverOutcomes.RefusedDeliveryStops` | packages/storage-sqlite/src/index.ts:1337-1350 | After such a step no number of further steps changes the run. |
| `RunDriverOutcomes.AnsweredAfterHandingInStops` | packages/storage-sqlite/migrations/001-baseline.sql:302-302 | A new run whose first dispatch asks, hands in and is then answered: every step is refused. |
| `RunDriverRetries.RetryTakesOverUnfinishedWork` | apps/senawa/src/advance-run.ts:1839-1870 | After any step that retries, the fresh dispatch is current exactly when the dispatch the step was about has not handed in, or is neither published nor accepted; otherwise the next step stands on handed-in work again. |
| `RunDriverRetries.NewestIsCurrent` | apps/senawa/src/advance-run.ts:1858-1870 | On every valid run the newest dispatch of a task is current exactly when it handed in, its task is not accepted, or no dispatch of the task handed in. |
| `RunDriverRetries.RetryTakesOverOnceHandedIn` | apps/senawa/src/advance-run.ts:1863-1870 | Once the dispatch made by any step that retries hands in it is current, even when the task was accepted before. |
| `RunDriverRetries.RetryOfAcceptedWorkIsNotAwaited` | apps/senawa/src/advance-run.ts:1860-1869 | After a step that retries done work the phase stands on that work again, and no next step waits for the agent of the retry. |
| `RunDriverRetries.RefusalsSpendEveryTry` | apps/senawa/src/advance-run.ts:851-890 | Any number of consecutive refusals within the ceiling make one try each, leave the phase at its gate, and wait for nobody. |
| `RunDriverRetries.RefusedGateSpendsTheAllowance` | apps/senawa/src/advance-run.ts:851-899 | Consecutive refusals make every try the ceiling leaves, and the next one escalates or stands. |
| `RunDriverRetries.SecondTryIsNeverAwaited` | apps/senawa/src/advance-run.ts:851-899 | A new run under a ceiling of two: two steps in a row make the second try and refuse the work for good. |
| `RunDriverProgress.HelpedStepLowers` | apps/senawa/src/advance-run.ts:269-970 | On every valid run a step whose dispatch has done its part, or is owed an answer it can be given, finishes the run or lowers what is left: phases, members without a dispatch, undelivered answers. |
| `RunDriverProgress.CooperationFinishes` | apps/senawa/src/advance-run.ts:196-206 | From every history, helped rounds finish the run once there is one for each phase's members and two more for each phase, one for each owed answer, and one for each answer that arrives. |
| `RunDriverProgress.WorkersCanHelp` | apps/senawa/src/advance-run.ts:563-617 | In every valid run where no current dispatch that is owed an answer to its own question is abandoned or has its task done, the current dispatches can hand in and publish so that the next step finds its dispatch's part done. |
| `RunDriverProgress.TheRunFinishes` | apps/senawa/src/advance-run.ts:777-969 | A new run whose one worker hands in and publishes first is helped, and its first step finishes it. |
| `UriComponents.EncodeIsInjective` | apps/senawa/src/dispatch-driver.ts:550-557 | Percent-encoding distinct texts never gives the same text. |
| `UriComponents.EncodedIsFree` | apps/senawa/src/dispatch-driver.ts:553-557 | An encoded part never holds the separator. |
| `Sessions.LineKeysAreDistinct` | apps/senawa/src/dispatch-driver.ts:549-557 | Two dispatches share a line key only if run, scope, role, the naming of a task and the named task agree. |
| `Sessions.SessionLedger.Dispatch` | apps/senawa/src/dispatch-driver.ts:529-630 | Deciding and then recording after registration gives the specified session and ledger; an unregistered dispatch records nothing. |
| `Sessions.SessionLedger.PutBinding` | packages/storage-sqlite/src/index.ts:1948-1999 | A binding recorded before is replayed, any other is appended. |
| `Sessions.ConversationsAreBounded` | apps/senawa/src/dispatch-driver.ts:566-570 | Over any dispatches with fresh identities no conversation carries more bindings than its line's bound (one under a bound of zero). |
| `Sessions.ConversationsAreContiguous` | apps/senawa/src/dispatch-driver.ts:597-611 | Whatever the bounds, a conversation is one unbroken stretch of its line; a renewed or lost one is never joined again. |
| `Sessions.ConversationsHaveOneLine` | apps/senawa/src/dispatch-driver.ts:549-557 | Over any dispatches with fresh identities no conversation is recorded on two lines. |
| `Sessions.ConversationsAreNotShared` | apps/senawa/src/dispatch-driver.ts:553-556 | So no other run, scope, role or named task ever takes part in a conversation. |
| `Sessions.TurnIsPositionUnlessRestarted` | apps/senawa/src/dispatch-driver.ts:566-630 | The reported turn is the place in the conversation exactly when the line has no conversation yet, or its latest one is within the bound and was recorded for the same inputs. |
| `Sessions.RenewalReportsTheOldTurn` | apps/senawa/src/dispatch-driver.ts:566-630 | A second dispatch under a bound of one reports turn two at position one. |
| `Budgets.RunnerBudgetAdditions` | apps/senawa/src/production-scheduler.ts:818-832 | The nested loops compute the specified additions. |
| `Budgets.FoldedIsTotal` | apps/senawa/src/production-scheduler.ts:820-827 | Each mentioned unit holds the sum of its budgets, plus the effect's amount when the first dispatch to mention it does so only by its effect. |
| `Budgets.AdditionsConcatenate` | apps/senawa/src/production-scheduler.ts:818-832 | Additions are additive at a unit exactly when the later dispatches do not open it by an effect the earlier ones mentioned. |
| `Budgets.DefaultIsGrantedTwice` | apps/senawa/src/production-scheduler.ts:824-826 | Two cycles can grant a default twice that one cycle grants once. |
| `BudgetCycles.RunnerBudgets.ConfigureRunner` | apps/senawa/src/production-scheduler.ts:264-305 | A cycle raises the limits by the additions of the unlisted dispatches and lists their scopes, or is refused without change. |
| `BudgetCycles.LimitsAreConserved` | apps/senawa/src/production-scheduler.ts:264-305 | After any cycles, registrations and allowances each limit is the one-shot total over the granted dispatches plus the allowances, and no task was granted twice. |
| `BudgetCycles.GrantedExactly` | apps/senawa/src/production-scheduler.ts:264-305 | In any history a task is granted its budgets exactly when a cycle that was not refused presented it and either configured the runner or found no scope listed for it. |
| `BudgetCycles.ListedAreGrantedExactly` | packages/storage-sqlite/src/index.ts:12348-12417 | Every listed task is granted exactly when each one another component registered is presented by such a cycle. |
| `BudgetCycles.RegisteredScopeIsPassedOver` | packages/storage-sqlite/src/index.ts:7512-7512 | A scope registered between two cycles is passed over by the second; registered before the configuring one it is granted. |
| `BudgetCycles.AdmittedAreGranted` | packages/runtime/src/in-memory-runner-authority.ts:274-318 | When only the scheduler admits scopes, every admitted scope was granted. |
| `BudgetCycles.RegisteredFirstIsNeverGranted` | packages/storage-sqlite/src/index.ts:12348-12417 | Once the runner is configured, a scope another component lists before any grant is never granted by any later cycle. |
| `StrictJson.StrictJsonParser.Parse` | packages/configuration/src/resources.ts:177-183 | The recursive-descent object returns what the specification gives for its whole text. |
| `StrictJson.StrictJsonParser.ParseValueHere` | packages/configuration/src/resources.ts:185-210 | A value read at the offset agrees with the specification on the remaining text, and the offset strictly advances. |
| `StrictJson.StrictJsonParser.ParseMembersHere` | packages/configuration/src/resources.ts:220-246 | The member loop, filling result and seen together, reports the JSON Pointer of the first repeated name. |
| `StrictJson.StrictJsonParser.ParseArrayHere` | packages/configuration/src/resources.ts:249-268 | The element loop agrees with the specification. |
| `StrictJson.StrictJsonParser.ParseStringHere` | packages/configuration/src/resources.ts:270-291 | The escape-tracking scan finds the closing quote and rejects control characters. |
| `StrictJsonProofs.AcceptsTheGrammar` | packages/configuration/src/resources.ts:159-302 | Every text RFC 8259 sections 2 to 7 allow, with finite numbers and no repeated member name, is accepted with the value it denotes. |
| `StrictJsonProofs.AcceptsOnlyTheGrammar` | packages/configuration/src/resources.ts:159-302 | Every accepted text is spelled by such a tree, and the result is the value it denotes. |
| `StrictJsonErrors.GrammarDecides` | packages/configuration/src/resources.ts:159-302 | The grammar alone decides the outcome: a value, the pointer of the first repeated name, or the plain error for every other text. |
| `StrictJsonErrors.RepeatedNameIsReported` | packages/configuration/src/resources.ts:224-231 | A text that is grammatical up to a name its object repeats is refused with the pointer of that name, whatever follows it. |
| `StrictJsonErrors.ReportedNameIsRepeated` | packages/configuration/src/resources.ts:224-231 | Only such texts are refused so, and the pointer is that of the repeated name. |
| `StrictJsonProofs.NumberIsMatched` | packages/configuration/src/resources.ts:200-202 | The number pattern matches a whole number of the grammar wherever it may end. |
| `StrictJsonProofs.NumberIsGrammatical` | packages/configuration/src/resources.ts:200-202 | What the pattern matches is a number of the grammar. |
| `StrictJsonProofs.StringIsParsed` | packages/configuration/src/resources.ts:270-291 | A string literal of the grammar is read whole and decoded to its units. |
| `CanonicalJson.ParsingInvertsPrinting` | packages/portal/vite.config.ts:71-79 | Parsing the sorted-key print of a value returns that value. |
| `CanonicalJson.PrintingIsInjective` | packages/portal/vite.config.ts:71-79 | Different values print differently. |
| `CanonicalJson.CanonicalFormIsFaithful` | packages/portal/vite.config.ts:71-79 | Reprinting an accepted text keeps its value, and two accepted texts reprint alike exactly when they denote one value. |
| `CanonicalJson.Quoted` | packages/portal/vite.config.ts:72-77 | Quoting yields pieces of the grammar that denote the text. |
| `PromptTemplate.ParsePromptTemplate` | packages/configuration/src/prompt-template.ts:35-70 | A template parses exactly when every occurrence of the marker opens a token and there are at most 256; the tokens are those occurrences, the paths their pointers once and sorted; otherwise the first offence is reported. |
| `PromptTemplate.GrammarIsMatched` | packages/configuration/src/prompt-template.ts:33-33 | A token of the grammar is matched whole with its names. |
| `PromptTemplate.MatchIsGrammatical` | packages/configuration/src/prompt-template.ts:33-33 | What the pattern matches is a token of the grammar. |
| `PromptTemplate.TokensAreDisjoint` | packages/configuration/src/prompt-template.ts:61-64 | Tokens are nonempty, ordered and disjoint. |
| `PromptTemplate.TokensAndGapsRebuild` | packages/configuration/src/prompt-template.ts:61-64 | Tokens and gaps in turn rebuild the template. |
| `PromptTemplate.CheckPath` | packages/configuration/src/prompt-template.ts:80-95 | The checks of length, ends, double slashes and each segment together decide canonical paths. |
| `PromptTemplate.CanonicalPromptInputPaths` | packages/configuration/src/prompt-template.ts:72-101 | Declared paths are accepted exactly when there are at most 256, all canonical and all different; the result is their sorted list. |
| `PromptTemplate.ValidatePromptTemplateInputs` | packages/configuration/src/prompt-template.ts:103-115 | A declaration is accepted exactly when it names the template's own paths, each once. |
| `PhaseClosure.TransitivePhaseDependencies` | packages/configuration/src/compiler.ts:3087-3100 | The worklist returns exactly the keys reached by one or more dependencies, sorted and once each, on cyclic graphs too. |

## Left out

- Ed25519 and SHA-256: signing, verifying and digesting are supplied functions; encoding and decoding of protocol messages is the identity on decoded values, so `previousEntryDigest` links of reported entries are not checked, as in the control plane itself.
- Numbers are mathematical integers, so the checks that an epoch, a limit, a delay or a cursor is a safe integer refuse none for its size.
- `negotiate`, `synchronization`, `receiptChain` and the simulator's `pending` only read state and would add easy members; synchronization cursors between reports are not ordered by the code either.
- ControlPlane.ReferenceControlPlane.Register: an argument the constructor of a binding throws on is not modelled beyond the clash of identities.
- DeliveryNetwork.DeterministicControlPlaneSimulator.Poll: the clock is read once per call, and frames are values, so a caller's reference to a frame object is not modelled.
- TransportModel.ReceiveIsComplete: claims nothing when more frames are due than the limit; then `DeliveryNetworkProofs.TakeDueIsFilter` says which are returned.
- RunDriver.RunRecords.Step: sensor execution, candidate construction, prompt rendering, refusal texts and upstream outputs do not influence the decisions modelled and are inputs or absent; a command the authority refuses where the step does not tolerate it (delivering facts, evaluating the gate, closing, starting the successor) and a refused delivery of an answer are thrown outcomes, while exceptions of rendering, publishing inputs or the stores themselves are absent.
- RunDriverProgress.CooperationFinishes: asks that each step finds the dispatch it is about handed in and published, or waiting for an answer it is owed with nobody abandoning it, that no fail-fast phase holds a blocked completion, and that a phase without a task is a fan-out that is given members; turns that end without handing in are retried within the ceiling of `RunDriverProofs.AttemptCeiling` and can use it up.
- RunDriverModel.SubmissionId: an exhaustion is identified by its dispatch and its tries; the code also shortens and filters the dispatch id in its name.
- RunDriverProofs.AttemptCeiling: assumes phases other than fan-outs own at most one task, as the compiler produces, and that a task belongs to one phase; amendments that replace tasks of a phase that already runs are not modelled, so no task supersedes another; only the making of a fan-out's members is.
- RunDriverModel.CloseEnded: attempts are recorded under the dispatch id instead of its digest, and a definition generation never changes for a task.
- Sessions.ConversationsAreBounded: one bound for each line; dispatch identities are fresh, so a replayed dispatch is outside its histories; the fields an attempt-scoped comparison reads are one opaque value because that scope never finds a predecessor.
- BudgetCycles.LimitsAreConserved: requires each dispatch's budgets to name its effect's unit, which the compiler enforces for the only unit dispatches reserve; reservations and spending against a limit, leases and writer capacities are not modelled.
- BudgetCycles.RunnerBudgets.ConfigureRunner: joining a scope's fields with NUL is modelled as the scope itself, since no field holds a NUL.
- StrictJson.StrictJsonParser.ParseMembersHere: assigning a member called `__proto__` behaves like any other.
- StrictJsonProofs.AcceptsTheGrammar: numbers stay lexemes and their finiteness is a supplied predicate; the later canonicalisation of the parsed value is not modelled.
- CanonicalJson.ParsingInvertsPrinting: a number prints as its lexeme, so the shortest decimal form of a floating-point number is not modelled.
- PromptTemplate.ValidatePromptTemplateInputs: rendering and substitution limits are not part of this model.
- `selectCurrentDispatches`, the ready frontier, Git worktree stages, SQLite stores, the context broker's own rules, supervisor processes and the field validators of the compiler are not part of this model.
