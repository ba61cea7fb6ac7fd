/** The records of the reference control plane, its operations as functions on
    values, and the invariant every reachable state keeps.

    Digests and signatures are taken by functions supplied in a `Config`; what
    they are applied to is a `Canonical`, one constructor per kind of text the
    control plane digests or signs. Nothing is assumed of those functions here. */
module ControlPlaneModel {
  import opened Options

  type Digest = string
  type Signature = string
  type Time = int

  datatype Binding = Binding(
    bindingId: string, tenantId: string, repositoryId: string, connectorId: string,
    repositoryKeyId: string, controlPlaneKeyId: string, revocationEpoch: nat,
    policyDigest: Digest, issuedAt: Time)

  datatype Principal = Principal(subject: string, tenant: string)

  /** `content` stands for the members of a submission the control plane only copies. */
  datatype Command = Command(commandId: string, repositoryId: string, expiresAt: Option<Time>, content: string)

  datatype AcceptedCommand = AcceptedCommand(
    acceptanceId: string, binding: Binding, principal: Principal, requestId: string,
    command: Command, commandDigest: Digest, acceptedAt: Time, expiresAt: Time)

  datatype UnsignedEnvelope = UnsignedEnvelope(
    sequence: nat, previousEnvelopeDigest: Option<Digest>, acceptedCommand: AcceptedCommand,
    acceptedCommandDigest: Digest, issuedAt: Time, signingKeyId: string)

  datatype Envelope = Envelope(unsigned: UnsignedEnvelope, signature: Signature) {
    function Sequence(): nat { unsigned.sequence }
    function CommandId(): string { unsigned.acceptedCommand.command.commandId }
    function ExpiresAt(): Time { unsigned.acceptedCommand.expiresAt }
  }

  datatype Evidence =
    | CentralAcceptance(acceptanceId: string, acceptanceDigest: Digest)
    | ConnectorDelivery(envelopeSequence: nat, envelopeDigest: Digest)
    | LocalEvidence(content: string)

  datatype Stage = CentralAccepted | ConnectorDelivered | LocalAccepted | RunnerClaimed | LocalOutcome

  datatype UnsignedEntry = UnsignedEntry(
    bindingId: string, commandId: string, stage: Stage, stageSequence: nat, recordedAt: Time,
    previousEntryDigest: Option<Digest>, evidence: Evidence)

  datatype Entry = Entry(unsigned: UnsignedEntry, entryDigest: Digest)

  datatype Chain = Chain(bindingId: string, commandId: string, entries: seq<Entry>)

  datatype Synchronization = Synchronization(
    localLatestCursor: nat, durablyEnqueuedCursor: nat, centrallyAcknowledgedCursor: nat,
    lastAcknowledgedAt: Option<Time>)

  datatype Report = Report(
    binding: Binding, reportId: string, reportSequence: nat, previousReportDigest: Option<Digest>,
    dataPolicyDigest: Digest, receiptChains: seq<Chain>, synchronization: Synchronization)

  datatype UnsignedAcknowledgement = UnsignedAcknowledgement(
    bindingId: string, repositoryId: string, reportId: string, reportSequence: nat,
    reportDigest: Digest, centralReceiptId: string, acknowledgedAt: Time, signingKeyId: string)

  datatype Acknowledgement = Acknowledgement(unsigned: UnsignedAcknowledgement, signature: Signature)

  datatype StoredCommand = StoredCommand(ingressDigest: Digest, envelope: Envelope, envelopeDigest: Digest)
  datatype StoredReport = StoredReport(reportDigest: Digest, acknowledgement: Acknowledgement)

  datatype Canonical =
    | IngressText(command: Command, connectorId: string, principal: Principal, repositoryKeyId: string)
    | CommandText(command: Command)
    | AcceptedCommandText(accepted: AcceptedCommand)
    | UnsignedEnvelopeText(unsignedEnvelope: UnsignedEnvelope)
    | EnvelopeText(envelope: Envelope)
    | EntryText(entry: UnsignedEntry)
    | ReportText(report: Report)
    | UnsignedAcknowledgementText(acknowledgement: UnsignedAcknowledgement)

  datatype Config = Config(
    signingKeyId: string,
    digest: Canonical -> Digest,
    sign: Canonical -> Signature,
    verify: (string, Canonical, Signature) -> bool)

  /** One repository binding: everything the control plane remembers about it. */
  datatype BindingData = BindingData(
    binding: Binding, publicKey: string, revoked: bool,
    envelopeSequence: nat, previousEnvelopeDigest: Option<Digest>,
    commands: map<string, StoredCommand>, envelopes: seq<Envelope>,
    receiptChains: map<string, Chain>,
    reportsBySequence: map<nat, StoredReport>, previousReportDigest: Option<Digest>,
    synchronization: Synchronization)

  /** `byKey` names the binding a repository key belongs to. */
  datatype Plane = Plane(byId: map<string, BindingData>, byKey: map<string, string>)

  datatype RefusalCode =
    | UnknownKey | BindingMismatch | ConnectorMismatch | TenantMismatch | RepositoryMismatch
    | InvalidSignature | Expired | Revoked | DuplicateConflict | SequenceConflict
    | ChainConflict | ClassificationRefused

  /** A `command` or `report` of None is input the decoder refuses. */
  datatype CommandIngress = CommandIngress(
    repositoryKeyId: string, connectorId: string, requestId: string,
    command: Option<Command>, signature: Signature)
  datatype ReportIngress = ReportIngress(
    repositoryKeyId: string, connectorId: string, report: Option<Report>, signature: Signature)

  datatype CommandOutcome = Accepted(replay: bool, envelope: Envelope) | CommandRefused(code: RefusalCode)
  /** `MissingEvidence` is the thrown error of a command without its receipt chain. */
  datatype DeliveryOutcome = Delivered(chain: Chain) | DeliveryRefused(refusal: RefusalCode) | MissingEvidence
  datatype ReportOutcome = Acknowledged(again: bool, acknowledgement: Acknowledgement) | ReportRefused(reason: RefusalCode)

  // ----- operations on one binding

  function BindingRefusal(s: BindingData, connectorId: string, tenant: Option<string>): Option<RefusalCode> {
    if s.revoked then Some(Revoked)
    else if s.binding.connectorId != connectorId then Some(ConnectorMismatch)
    else if tenant.Some? && s.binding.tenantId != tenant.value then Some(TenantMismatch)
    else None
  }

  function MakeEntry(c: Config, unsigned: UnsignedEntry): Entry {
    Entry(unsigned, c.digest(EntryText(unsigned)))
  }

  function Seal(c: Config, unsigned: UnsignedEnvelope): Envelope {
    Envelope(unsigned, c.sign(UnsignedEnvelopeText(unsigned)))
  }

  function HeadOf(c: Config, envelopes: seq<Envelope>): Option<Digest> {
    if envelopes == [] then None else Some(c.digest(EnvelopeText(envelopes[|envelopes| - 1])))
  }

  function CentralEntry(c: Config, bindingId: string, e: Envelope): Entry {
    MakeEntry(c, UnsignedEntry(bindingId, e.CommandId(), CentralAccepted, 1, e.unsigned.issuedAt, None,
                               CentralAcceptance(e.unsigned.acceptedCommand.acceptanceId, e.unsigned.acceptedCommandDigest)))
  }

  function FreshEnvelope(c: Config, s: BindingData, ingress: CommandIngress, command: Command, expiresAt: Time,
                         principal: Principal, now: Time, acceptanceId: string): Envelope
  {
    var accepted := AcceptedCommand(acceptanceId, s.binding, principal, ingress.requestId, command,
                                    c.digest(CommandText(command)), now, expiresAt);
    Seal(c, UnsignedEnvelope(s.envelopeSequence + 1, s.previousEnvelopeDigest, accepted,
                             c.digest(AcceptedCommandText(accepted)), now, c.signingKeyId))
  }

  function RecordCommand(c: Config, s: BindingData, ingressDigest: Digest, e: Envelope): BindingData {
    var id := e.CommandId();
    var sealed := c.digest(EnvelopeText(e));
    s.(envelopeSequence := e.Sequence(),
       previousEnvelopeDigest := Some(sealed),
       envelopes := s.envelopes + [e],
       commands := s.commands[id := StoredCommand(ingressDigest, e, sealed)],
       receiptChains := s.receiptChains[id := Chain(s.binding.bindingId, id, [CentralEntry(c, s.binding.bindingId, e)])])
  }

  function AcceptCommandOn(c: Config, s: BindingData, ingress: CommandIngress, principal: Principal,
                           now: Time, acceptanceId: string): (BindingData, CommandOutcome)
  {
    var denied := BindingRefusal(s, ingress.connectorId, Some(principal.tenant));
    if denied.Some? then (s, CommandRefused(denied.value))
    else if ingress.command.None? then (s, CommandRefused(BindingMismatch))
    else
      var command := ingress.command.value;
      if command.repositoryId != s.binding.repositoryId then (s, CommandRefused(RepositoryMismatch))
      else if !c.verify(s.publicKey, CommandText(command), ingress.signature) then (s, CommandRefused(InvalidSignature))
      else
        var ingressDigest := c.digest(IngressText(command, ingress.connectorId, principal, ingress.repositoryKeyId));
        if command.commandId in s.commands then
          var existing := s.commands[command.commandId];
          if existing.ingressDigest != ingressDigest then (s, CommandRefused(DuplicateConflict))
          else (s, Accepted(true, existing.envelope))
        else if command.expiresAt.None? || command.expiresAt.value <= now then (s, CommandRefused(Expired))
        else
          var e := FreshEnvelope(c, s, ingress, command, command.expiresAt.value, principal, now, acceptanceId);
          (RecordCommand(c, s, ingressDigest, e), Accepted(false, e))
  }

  function DeliveryEntry(c: Config, bindingId: string, e: Envelope, prior: Entry, now: Time): Entry {
    MakeEntry(c, UnsignedEntry(bindingId, e.CommandId(), ConnectorDelivered, 2, now, Some(prior.entryDigest),
                               ConnectorDelivery(e.Sequence(), c.digest(EnvelopeText(e)))))
  }

  function RecordDeliveryOn(c: Config, s: BindingData, sequence: int, now: Time): (BindingData, DeliveryOutcome) {
    if s.revoked then (s, DeliveryRefused(Revoked))
    else if !(1 <= sequence <= |s.envelopes|) || s.envelopes[sequence - 1].Sequence() != sequence then
      (s, DeliveryRefused(SequenceConflict))
    else
      var e := s.envelopes[sequence - 1];
      if e.ExpiresAt() <= now then (s, DeliveryRefused(Expired))
      else if e.CommandId() !in s.receiptChains then (s, MissingEvidence)
      else
        var current := s.receiptChains[e.CommandId()];
        if |current.entries| >= 2 then (s, Delivered(current))
        else if |current.entries| == 0 then (s, MissingEvidence)
        else
          var entry := DeliveryEntry(c, s.binding.bindingId, e, current.entries[0], now);
          var chain := current.(entries := current.entries + [entry]);
          (s.(receiptChains := s.receiptChains[current.commandId := chain]), Delivered(chain))
  }

  /** Whether a reported chain repeats the recorded one and every entry carries its own digest. */
  predicate ChainExtends(c: Config, current: Chain, candidate: Chain) {
    && candidate.bindingId == current.bindingId
    && candidate.commandId == current.commandId
    && |candidate.entries| >= |current.entries|
    && forall i :: 0 <= i < |candidate.entries| ==>
         && candidate.entries[i] == MakeEntry(c, candidate.entries[i].unsigned)
         && (i < |current.entries| ==> current.entries[i] == candidate.entries[i])
  }

  predicate AllExtend(c: Config, chains: map<string, Chain>, candidates: seq<Chain>) {
    forall k :: 0 <= k < |candidates| ==>
      candidates[k].commandId in chains && ChainExtends(c, chains[candidates[k].commandId], candidates[k])
  }

  function WriteChains(chains: map<string, Chain>, candidates: seq<Chain>): map<string, Chain> {
    if candidates == [] then chains
    else
      var last := candidates[|candidates| - 1];
      WriteChains(chains, candidates[..|candidates| - 1])[last.commandId := last]
  }

  function Acknowledge(c: Config, report: Report, reportDigest: Digest, now: Time, receiptId: string): Acknowledgement {
    var unsigned := UnsignedAcknowledgement(report.binding.bindingId, report.binding.repositoryId, report.reportId,
                                            report.reportSequence, reportDigest, receiptId, now, c.signingKeyId);
    Acknowledgement(unsigned, c.sign(UnsignedAcknowledgementText(unsigned)))
  }

  function RecordReport(s: BindingData, report: Report, stored: StoredReport, now: Time): BindingData {
    s.(receiptChains := WriteChains(s.receiptChains, report.receiptChains),
       reportsBySequence := s.reportsBySequence[report.reportSequence := stored],
       previousReportDigest := Some(stored.reportDigest),
       synchronization := report.synchronization.(
         centrallyAcknowledgedCursor := report.synchronization.durablyEnqueuedCursor,
         lastAcknowledgedAt := if report.synchronization.durablyEnqueuedCursor == 0 then None else Some(now)))
  }

  function AcceptReportOn(c: Config, s: BindingData, ingress: ReportIngress, now: Time, receiptId: string): (BindingData, ReportOutcome) {
    var denied := BindingRefusal(s, ingress.connectorId, None);
    if denied.Some? then (s, ReportRefused(denied.value))
    else if ingress.report.None? then (s, ReportRefused(BindingMismatch))
    else
      var report := ingress.report.value;
      var reportDigest := c.digest(ReportText(report));
      if !c.verify(s.publicKey, ReportText(report), ingress.signature) then (s, ReportRefused(InvalidSignature))
      else if report.binding != s.binding then (s, ReportRefused(BindingMismatch))
      else if report.dataPolicyDigest != s.binding.policyDigest then (s, ReportRefused(ClassificationRefused))
      else if report.reportSequence in s.reportsBySequence then
        var existing := s.reportsBySequence[report.reportSequence];
        if existing.reportDigest != reportDigest then (s, ReportRefused(DuplicateConflict))
        else (s, Acknowledged(true, existing.acknowledgement))
      else if report.reportSequence != |s.reportsBySequence| + 1 || report.previousReportDigest != s.previousReportDigest then
        (s, ReportRefused(SequenceConflict))
      else if !AllExtend(c, s.receiptChains, report.receiptChains) then (s, ReportRefused(ChainConflict))
      else
        var acknowledgement := Acknowledge(c, report, reportDigest, now, receiptId);
        (RecordReport(s, report, StoredReport(reportDigest, acknowledgement), now), Acknowledged(false, acknowledgement))
  }

  function NewBinding(binding: Binding, publicKey: string): BindingData {
    BindingData(binding, publicKey, false, 0, None, map[], [], map[], map[], None, Synchronization(0, 0, 0, None))
  }

  // ----- operations on the whole plane

  datatype Op =
    | Register(newBinding: Binding, publicKey: string)
    | AcceptCommand(command: CommandIngress, principal: Principal, commandNow: Time, acceptanceId: string)
    | RecordDelivery(deliveredBinding: string, sequence: int, deliveryNow: Time)
    | AcceptReport(report: ReportIngress, reportNow: Time, receiptId: string)
    | Revoke(revokedBinding: string)

  /** `Threw` is an operation that ended by throwing. */
  datatype Outcome =
    | Done
    | Threw
    | OfCommand(commandOutcome: CommandOutcome)
    | OfDelivery(deliveryOutcome: DeliveryOutcome)
    | OfReport(reportOutcome: ReportOutcome)

  function StateOfKey(p: Plane, key: string): Option<BindingData> {
    if key in p.byKey && p.byKey[key] in p.byId then Some(p.byId[p.byKey[key]]) else None
  }

  function Put(p: Plane, s: BindingData): Plane {
    p.(byId := p.byId[s.binding.bindingId := s])
  }

  function RegisterIn(c: Config, p: Plane, binding: Binding, publicKey: string): (Plane, Outcome) {
    if binding.controlPlaneKeyId != c.signingKeyId || binding.repositoryKeyId in p.byKey || binding.bindingId in p.byId then (p, Threw)
    else (Plane(p.byId[binding.bindingId := NewBinding(binding, publicKey)],
                p.byKey[binding.repositoryKeyId := binding.bindingId]), Done)
  }

  function AcceptCommandIn(c: Config, p: Plane, ingress: CommandIngress, principal: Principal, now: Time, acceptanceId: string): (Plane, CommandOutcome) {
    var found := StateOfKey(p, ingress.repositoryKeyId);
    if found.None? then (p, CommandRefused(UnknownKey))
    else
      var (s, outcome) := AcceptCommandOn(c, found.value, ingress, principal, now, acceptanceId);
      (Put(p, s), outcome)
  }

  function RecordDeliveryIn(c: Config, p: Plane, bindingId: string, sequence: int, now: Time): (Plane, DeliveryOutcome) {
    if bindingId !in p.byId then (p, DeliveryRefused(BindingMismatch))
    else
      var (s, outcome) := RecordDeliveryOn(c, p.byId[bindingId], sequence, now);
      (Put(p, s), outcome)
  }

  function AcceptReportIn(c: Config, p: Plane, ingress: ReportIngress, now: Time, receiptId: string): (Plane, ReportOutcome) {
    var found := StateOfKey(p, ingress.repositoryKeyId);
    if found.None? then (p, ReportRefused(UnknownKey))
    else
      var (s, outcome) := AcceptReportOn(c, found.value, ingress, now, receiptId);
      (Put(p, s), outcome)
  }

  function RevokeIn(p: Plane, bindingId: string): (Plane, Outcome) {
    if bindingId !in p.byId then (p, Threw)
    else (Put(p, p.byId[bindingId].(revoked := true)), Done)
  }

  function Step(c: Config, p: Plane, op: Op): (Plane, Outcome) {
    match op
    case Register(binding, publicKey) => RegisterIn(c, p, binding, publicKey)
    case AcceptCommand(ingress, principal, now, id) =>
      var (p', outcome) := AcceptCommandIn(c, p, ingress, principal, now, id); (p', OfCommand(outcome))
    case RecordDelivery(bindingId, sequence, now) =>
      var (p', outcome) := RecordDeliveryIn(c, p, bindingId, sequence, now); (p', OfDelivery(outcome))
    case AcceptReport(ingress, now, id) =>
      var (p', outcome) := AcceptReportIn(c, p, ingress, now, id); (p', OfReport(outcome))
    case Revoke(bindingId) => RevokeIn(p, bindingId)
  }

  function Run(c: Config, p: Plane, ops: seq<Op>): Plane
    decreases |ops|
  {
    if ops == [] then p else Run(c, Step(c, p, ops[0]).0, ops[1..])
  }

  const EMPTY := Plane(map[], map[])

  // ----- what every reachable state keeps

  ghost predicate EnvelopeOk(c: Config, binding: Binding, envelopes: seq<Envelope>, i: nat)
    requires i < |envelopes|
  {
    && envelopes[i].Sequence() == i + 1
    && envelopes[i].unsigned.previousEnvelopeDigest == HeadOf(c, envelopes[..i])
    && envelopes[i] == Seal(c, envelopes[i].unsigned)
    && envelopes[i].unsigned.acceptedCommand.binding == binding
  }

  /** The log is gapless, sealed, and every envelope names the digest of its predecessor. */
  ghost predicate EnvelopeLogOk(c: Config, binding: Binding, envelopes: seq<Envelope>) {
    forall i: nat {:trigger EnvelopeOk(c, binding, envelopes, i)} :: i < |envelopes| ==> EnvelopeOk(c, binding, envelopes, i)
  }

  ghost predicate Indexed(c: Config, commands: map<string, StoredCommand>, envelopes: seq<Envelope>, id: string)
    requires id in commands
  {
    var stored := commands[id];
    && stored.envelope.CommandId() == id
    && stored.envelopeDigest == c.digest(EnvelopeText(stored.envelope))
    && 1 <= stored.envelope.Sequence() <= |envelopes|
    && envelopes[stored.envelope.Sequence() - 1] == stored.envelope
  }

  ghost predicate Listed(commands: map<string, StoredCommand>, e: Envelope) {
    e.CommandId() in commands && commands[e.CommandId()].envelope == e
  }

  /** Commands and envelopes are in bijection by command id. */
  ghost predicate CommandIndexOk(c: Config, commands: map<string, StoredCommand>, envelopes: seq<Envelope>) {
    && (forall i: nat {:trigger Listed(commands, envelopes[i])} :: i < |envelopes| ==> Listed(commands, envelopes[i]))
    && (forall id {:trigger Indexed(c, commands, envelopes, id)} :: id in commands ==> Indexed(c, commands, envelopes, id))
  }

  ghost predicate SelfDigested(c: Config, entry: Entry) {
    entry == MakeEntry(c, entry.unsigned)
  }

  /** A chain starts with the central evidence of its envelope and every entry carries its own digest. */
  ghost predicate ChainOk(c: Config, bindingId: string, e: Envelope, chain: Chain) {
    && chain.bindingId == bindingId
    && chain.commandId == e.CommandId()
    && |chain.entries| >= 1
    && chain.entries[0] == CentralEntry(c, bindingId, e)
    && forall i :: 0 <= i < |chain.entries| ==> SelfDigested(c, chain.entries[i])
  }

  ghost predicate ChainsOk(c: Config, bindingId: string, commands: map<string, StoredCommand>, chains: map<string, Chain>) {
    && chains.Keys == commands.Keys
    && forall id {:trigger chains[id]} :: id in chains ==> ChainOk(c, bindingId, commands[id].envelope, chains[id])
  }

  function ReportHead(c: Config, log: seq<Report>): Option<Digest> {
    if log == [] then None else Some(c.digest(ReportText(log[|log| - 1])))
  }

  ghost predicate ReportOk(c: Config, reports: map<nat, StoredReport>, log: seq<Report>, i: nat)
    requires i < |log|
  {
    && i + 1 in reports
    && reports[i + 1].reportDigest == c.digest(ReportText(log[i]))
    && reports[i + 1].acknowledgement.unsigned.reportSequence == i + 1
    && log[i].reportSequence == i + 1
    && log[i].previousReportDigest == ReportHead(c, log[..i])
  }

  /** `log` lists the reports acknowledged so far: the stored sequence numbers are
      exactly 1..n and every report names the digest of the one before it. */
  ghost predicate ReportLogOk(c: Config, reports: map<nat, StoredReport>, head: Option<Digest>, log: seq<Report>) {
    && |reports| == |log|
    && head == ReportHead(c, log)
    && (forall n :: n in reports ==> 1 <= n <= |log|)
    && forall i: nat {:trigger ReportOk(c, reports, log, i)} :: i < |log| ==> ReportOk(c, reports, log, i)
  }

  ghost predicate ReportsOk(c: Config, reports: map<nat, StoredReport>, head: Option<Digest>) {
    exists log :: ReportLogOk(c, reports, head, log)
  }

  ghost predicate BindingOk(c: Config, s: BindingData) {
    && s.envelopeSequence == |s.envelopes|
    && s.previousEnvelopeDigest == HeadOf(c, s.envelopes)
    && EnvelopeLogOk(c, s.binding, s.envelopes)
    && CommandIndexOk(c, s.commands, s.envelopes)
    && ChainsOk(c, s.binding.bindingId, s.commands, s.receiptChains)
    && ReportsOk(c, s.reportsBySequence, s.previousReportDigest)
  }

  /** The two indexes hold the same bindings, each under its own two names. */
  ghost predicate IndexesOk(p: Plane) {
    && (forall id :: id in p.byId ==>
          && p.byId[id].binding.bindingId == id
          && p.byId[id].binding.repositoryKeyId in p.byKey
          && p.byKey[p.byId[id].binding.repositoryKeyId] == id)
    && (forall key :: key in p.byKey ==>
          && p.byKey[key] in p.byId
          && p.byId[p.byKey[key]].binding.repositoryKeyId == key)
  }

  ghost predicate BindingOkAt(c: Config, p: Plane, id: string)
    requires id in p.byId
  {
    BindingOk(c, p.byId[id])
  }

  ghost predicate PlaneOk(c: Config, p: Plane) {
    IndexesOk(p) && forall id {:trigger BindingOkAt(c, p, id)} :: id in p.byId ==> BindingOkAt(c, p, id)
  }

  // ----- how a state may change

  ghost predicate ChainPrefix(a: Chain, b: Chain) {
    a.bindingId == b.bindingId && a.commandId == b.commandId && a.entries <= b.entries
  }

  ghost predicate CommandsKept(a: map<string, StoredCommand>, b: map<string, StoredCommand>) {
    forall id {:trigger b[id]} {:trigger id in b} :: id in a ==> id in b && b[id] == a[id]
  }

  ghost predicate ChainsGrow(a: map<string, Chain>, b: map<string, Chain>) {
    forall id {:trigger b[id]} {:trigger id in b} :: id in a ==> id in b && ChainPrefix(a[id], b[id])
  }

  ghost predicate ReportsKept(a: map<nat, StoredReport>, b: map<nat, StoredReport>) {
    forall n {:trigger b[n]} {:trigger n in b} :: n in a ==> n in b && b[n] == a[n]
  }

  /** Nothing recorded is ever lost or altered; a revoked binding does not change at all. */
  ghost predicate Grows(s: BindingData, t: BindingData) {
    && t.binding == s.binding
    && t.publicKey == s.publicKey
    && (s.revoked ==> t == s)
    && s.envelopes <= t.envelopes
    && CommandsKept(s.commands, t.commands)
    && ChainsGrow(s.receiptChains, t.receiptChains)
    && ReportsKept(s.reportsBySequence, t.reportsBySequence)
  }

  ghost predicate GrowsAt(p: Plane, q: Plane, id: string)
    requires id in p.byId
  {
    id in q.byId && Grows(p.byId[id], q.byId[id])
  }

  ghost predicate PlaneGrows(p: Plane, q: Plane) {
    && (forall id {:trigger GrowsAt(p, q, id)} :: id in p.byId ==> GrowsAt(p, q, id))
    && (forall key :: key in p.byKey ==> key in q.byKey && q.byKey[key] == p.byKey[key])
  }

  /** The binding an operation is addressed to, when it is addressed to one. */
  function Target(p: Plane, op: Op): Option<string> {
    match op
    case Register(binding, _) => Some(binding.bindingId)
    case AcceptCommand(ingress, _, _, _) =>
      if ingress.repositoryKeyId in p.byKey then Some(p.byKey[ingress.repositoryKeyId]) else None
    case RecordDelivery(bindingId, _, _) => Some(bindingId)
    case AcceptReport(ingress, _, _) =>
      if ingress.repositoryKeyId in p.byKey then Some(p.byKey[ingress.repositoryKeyId]) else None
    case Revoke(bindingId) => Some(bindingId)
  }

  /** An outcome that reports a refusal, a replay or a thrown error. */
  predicate ChangesNothing(outcome: Outcome) {
    match outcome
    case Done => false
    case Threw => true
    case OfCommand(o) => o.CommandRefused? || o.replay
    case OfDelivery(o) => !o.Delivered?
    case OfReport(o) => o.ReportRefused? || o.again
  }
}
