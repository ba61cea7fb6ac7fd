/** The reference control plane as the mutable object it is: two indexes over the
    same binding records, each operation proved to do what its function on values does. */
module ControlPlane {
  import opened Options
  import opened ControlPlaneModel

  class BindingState {
    const binding: Binding
    const publicKey: string
    var revoked: bool
    var envelopeSequence: nat
    var previousEnvelopeDigest: Option<Digest>
    var commands: map<string, StoredCommand>
    var envelopes: seq<Envelope>
    var receiptChains: map<string, Chain>
    var reportsBySequence: map<nat, StoredReport>
    var previousReportDigest: Option<Digest>
    var synchronization: Synchronization

    constructor (binding: Binding, publicKey: string)
      ensures View() == NewBinding(binding, publicKey) && this.binding == binding
    {
      this.binding := binding;
      this.publicKey := publicKey;
      revoked := false;
      envelopeSequence := 0;
      previousEnvelopeDigest := None;
      commands := map[];
      envelopes := [];
      receiptChains := map[];
      reportsBySequence := map[];
      previousReportDigest := None;
      synchronization := Synchronization(0, 0, 0, None);
    }

    ghost function View(): BindingData
      reads this
    {
      BindingData(binding, publicKey, revoked, envelopeSequence, previousEnvelopeDigest, commands, envelopes,
                  receiptChains, reportsBySequence, previousReportDigest, synchronization)
    }

    method Refusal(connectorId: string, tenant: Option<string>) returns (denied: Option<RefusalCode>)
      ensures denied == BindingRefusal(View(), connectorId, tenant)
    {
      if revoked { return Some(Revoked); }
      if binding.connectorId != connectorId { return Some(ConnectorMismatch); }
      if tenant.Some? && binding.tenantId != tenant.value { return Some(TenantMismatch); }
      return None;
    }
  }

  method ChainExtendsCheck(c: Config, current: Chain, candidate: Chain) returns (extends_: bool)
    ensures extends_ <==> ChainExtends(c, current, candidate)
  {
    if candidate.bindingId != current.bindingId || candidate.commandId != current.commandId || |candidate.entries| < |current.entries| {
      return false;
    }
    for index := 0 to |candidate.entries|
      invariant forall i :: 0 <= i < index ==>
                  && candidate.entries[i] == MakeEntry(c, candidate.entries[i].unsigned)
                  && (i < |current.entries| ==> current.entries[i] == candidate.entries[i])
    {
      var entry := candidate.entries[index];
      if entry.entryDigest != c.digest(EntryText(entry.unsigned)) { return false; }
      if index < |current.entries| && current.entries[index] != entry { return false; }
    }
    return true;
  }

  class ReferenceControlPlane {
    const config: Config
    var bindingsByRepositoryKey: map<string, BindingState>
    var bindingsById: map<string, BindingState>

    ghost predicate Valid()
      reads this
    {
      && (forall id :: id in bindingsById ==>
            && bindingsById[id].binding.bindingId == id
            && bindingsById[id].binding.repositoryKeyId in bindingsByRepositoryKey
            && bindingsByRepositoryKey[bindingsById[id].binding.repositoryKeyId] == bindingsById[id])
      && (forall key :: key in bindingsByRepositoryKey ==>
            && bindingsByRepositoryKey[key].binding.repositoryKeyId == key
            && bindingsByRepositoryKey[key].binding.bindingId in bindingsById
            && bindingsById[bindingsByRepositoryKey[key].binding.bindingId] == bindingsByRepositoryKey[key])
    }

    ghost function View(): Plane
      reads this, bindingsById.Values
    {
      Plane(map id | id in bindingsById :: bindingsById[id].View(),
            map key | key in bindingsByRepositoryKey :: bindingsByRepositoryKey[key].binding.bindingId)
    }

    lemma IndexesAgree()
      requires Valid()
      ensures IndexesOk(View())
      ensures forall key :: StateOfKey(View(), key) ==
                if key in bindingsByRepositoryKey then Some(bindingsByRepositoryKey[key].View()) else None
      ensures forall key :: key in bindingsByRepositoryKey ==> bindingsByRepositoryKey[key] in bindingsById.Values
    {
    }

    constructor (config: Config)
      ensures Valid() && this.config == config && View() == EMPTY
      ensures bindingsById == map[]
    {
      this.config := config;
      bindingsByRepositoryKey := map[];
      bindingsById := map[];
    }

    /** Only one record changed, so only one entry of the view did. */
    twostate lemma OneRecordChanged(state: BindingState)
      requires old(Valid()) && unchanged(this)
      requires state in bindingsById.Values
      requires forall other :: other in bindingsById.Values && other != state ==> unchanged(other)
      ensures View() == Put(old(View()), state.View())
    {
      var id :| id in bindingsById && bindingsById[id] == state;
      forall other | other in bindingsById
        ensures View().byId[other] == Put(old(View()), state.View()).byId[other]
      {
        if other != id {
          assert bindingsById[other].binding.bindingId == other;
          assert bindingsById[other] in bindingsById.Values;
        }
      }
      assert View().byId == Put(old(View()), state.View()).byId;
      assert View().byKey == old(View()).byKey;
    }

    twostate lemma OneRecordIndexedById(new state: BindingState)
      requires state.binding.bindingId !in old(bindingsById)
      requires bindingsById == old(bindingsById)[state.binding.bindingId := state]
      requires forall other :: other in old(bindingsById.Values) ==> unchanged(other)
      ensures View().byId == old(View()).byId[state.binding.bindingId := state.View()]
    {
      hide BindingState.View;
      forall id | id in old(bindingsById) ensures bindingsById[id].View() == old(bindingsById[id].View()) {
        assert bindingsById[id] in old(bindingsById.Values);
      }
    }

    twostate lemma OneRecordIndexedByKey(new state: BindingState)
      requires state.binding.repositoryKeyId !in old(bindingsByRepositoryKey)
      requires bindingsByRepositoryKey == old(bindingsByRepositoryKey)[state.binding.repositoryKeyId := state]
      ensures View().byKey == old(View()).byKey[state.binding.repositoryKeyId := state.binding.bindingId]
    {
    }

    twostate lemma IndexedIsValid(new state: BindingState)
      requires old(Valid())
      requires state.binding.bindingId !in old(bindingsById) && state.binding.repositoryKeyId !in old(bindingsByRepositoryKey)
      requires bindingsById == old(bindingsById)[state.binding.bindingId := state]
      requires bindingsByRepositoryKey == old(bindingsByRepositoryKey)[state.binding.repositoryKeyId := state]
      ensures Valid()
    {
    }

    lemma IndexKeys()
      ensures forall id :: id in View().byId <==> id in bindingsById
      ensures forall key :: key in View().byKey <==> key in bindingsByRepositoryKey
    {
    }

    method Register(binding: Binding, publicKey: string) returns (outcome: Outcome)
      requires Valid()
      modifies this
      ensures Valid() && (View(), outcome) == RegisterIn(config, old(View()), binding, publicKey)
      ensures fresh(bindingsById.Values - old(bindingsById.Values))
    {
      hide NewBinding, BindingState.View, ReferenceControlPlane.View, ReferenceControlPlane.Valid;
      IndexKeys();
      if binding.controlPlaneKeyId != config.signingKeyId || binding.repositoryKeyId in bindingsByRepositoryKey || binding.bindingId in bindingsById {
        return Threw;
      }
      var state := new BindingState(binding, publicKey);
      bindingsByRepositoryKey := bindingsByRepositoryKey[binding.repositoryKeyId := state];
      bindingsById := bindingsById[binding.bindingId := state];
      OneRecordIndexedById(state);
      OneRecordIndexedByKey(state);
      IndexedIsValid(state);
      return Done;
    }

    method AcceptCommand(ingress: CommandIngress, principal: Principal, now: Time, acceptanceId: string) returns (outcome: CommandOutcome)
      requires Valid()
      modifies bindingsById.Values
      ensures Valid() && unchanged(this)
      ensures (View(), outcome) == AcceptCommandIn(config, old(View()), ingress, principal, now, acceptanceId)
    {
      hide AcceptCommandOn, IndexesOk, Put;
      IndexesAgree();
      if ingress.repositoryKeyId !in bindingsByRepositoryKey { return CommandRefused(UnknownKey); }
      var state := bindingsByRepositoryKey[ingress.repositoryKeyId];
      outcome := AcceptOn(state, ingress, principal, now, acceptanceId);
      OneRecordChanged(state);
    }

    method AcceptOn(state: BindingState, ingress: CommandIngress, principal: Principal, now: Time, acceptanceId: string) returns (outcome: CommandOutcome)
      modifies state
      ensures (state.View(), outcome) == AcceptCommandOn(config, old(state.View()), ingress, principal, now, acceptanceId)
    {
      hide RecordCommand, BindingRefusal;
      var denied := state.Refusal(ingress.connectorId, Some(principal.tenant));
      if denied.Some? { return CommandRefused(denied.value); }
      if ingress.command.None? { return CommandRefused(BindingMismatch); }
      var command := ingress.command.value;
      if command.repositoryId != state.binding.repositoryId { return CommandRefused(RepositoryMismatch); }
      var ingressDigest := config.digest(IngressText(command, ingress.connectorId, principal, ingress.repositoryKeyId));
      if !config.verify(state.publicKey, CommandText(command), ingress.signature) { return CommandRefused(InvalidSignature); }
      if command.commandId in state.commands {
        var existing := state.commands[command.commandId];
        if existing.ingressDigest != ingressDigest { return CommandRefused(DuplicateConflict); }
        return Accepted(true, existing.envelope);
      }
      if command.expiresAt.None? || command.expiresAt.value <= now { return CommandRefused(Expired); }
      var accepted := AcceptedCommand(acceptanceId, state.binding, principal, ingress.requestId, command,
                                      config.digest(CommandText(command)), now, command.expiresAt.value);
      var sequence := state.envelopeSequence + 1;
      var unsigned := UnsignedEnvelope(sequence, state.previousEnvelopeDigest, accepted,
                                       config.digest(AcceptedCommandText(accepted)), now, config.signingKeyId);
      var envelope := Envelope(unsigned, config.sign(UnsignedEnvelopeText(unsigned)));
      RecordAccepted(state, ingressDigest, envelope);
      return Accepted(false, envelope);
    }

    method RecordAccepted(state: BindingState, ingressDigest: Digest, envelope: Envelope)
      modifies state
      ensures state.View() == RecordCommand(config, old(state.View()), ingressDigest, envelope)
    {
      hide CentralEntry;
      var commandId := envelope.CommandId();
      var envelopeDigest := config.digest(EnvelopeText(envelope));
      var chain := Chain(state.binding.bindingId, commandId, [CentralEntry(config, state.binding.bindingId, envelope)]);
      state.envelopeSequence := envelope.Sequence();
      state.previousEnvelopeDigest := Some(envelopeDigest);
      state.envelopes := state.envelopes + [envelope];
      state.commands := state.commands[commandId := StoredCommand(ingressDigest, envelope, envelopeDigest)];
      state.receiptChains := state.receiptChains[commandId := chain];
    }

    method RecordDelivery(bindingId: string, sequence: int, now: Time) returns (outcome: DeliveryOutcome)
      requires Valid()
      modifies bindingsById.Values
      ensures Valid() && unchanged(this)
      ensures (View(), outcome) == RecordDeliveryIn(config, old(View()), bindingId, sequence, now)
    {
      if bindingId !in bindingsById { return DeliveryRefused(BindingMismatch); }
      var state := bindingsById[bindingId];
      outcome := DeliverOn(state, sequence, now);
      OneRecordChanged(state);
    }

    method DeliverOn(state: BindingState, sequence: int, now: Time) returns (outcome: DeliveryOutcome)
      modifies state
      ensures (state.View(), outcome) == RecordDeliveryOn(config, old(state.View()), sequence, now)
    {
      if state.revoked { return DeliveryRefused(Revoked); }
      if !(1 <= sequence <= |state.envelopes|) || state.envelopes[sequence - 1].Sequence() != sequence {
        return DeliveryRefused(SequenceConflict);
      }
      var envelope := state.envelopes[sequence - 1];
      if envelope.ExpiresAt() <= now { return DeliveryRefused(Expired); }
      if envelope.CommandId() !in state.receiptChains { return MissingEvidence; }
      var current := state.receiptChains[envelope.CommandId()];
      if |current.entries| >= 2 { return Delivered(current); }
      if |current.entries| == 0 { return MissingEvidence; }
      var entry := DeliveryEntry(config, state.binding.bindingId, envelope, current.entries[0], now);
      var chain := current.(entries := current.entries + [entry]);
      state.receiptChains := state.receiptChains[current.commandId := chain];
      return Delivered(chain);
    }

    method AcceptReport(ingress: ReportIngress, now: Time, receiptId: string) returns (outcome: ReportOutcome)
      requires Valid()
      modifies bindingsById.Values
      ensures Valid() && unchanged(this)
      ensures (View(), outcome) == AcceptReportIn(config, old(View()), ingress, now, receiptId)
    {
      hide AcceptReportOn, IndexesOk, Put;
      IndexesAgree();
      if ingress.repositoryKeyId !in bindingsByRepositoryKey { return ReportRefused(UnknownKey); }
      var state := bindingsByRepositoryKey[ingress.repositoryKeyId];
      outcome := ReportOn(state, ingress, now, receiptId);
      OneRecordChanged(state);
    }

    method ReportOn(state: BindingState, ingress: ReportIngress, now: Time, receiptId: string) returns (outcome: ReportOutcome)
      modifies state
      ensures (state.View(), outcome) == AcceptReportOn(config, old(state.View()), ingress, now, receiptId)
    {
      var denied := state.Refusal(ingress.connectorId, None);
      if denied.Some? { return ReportRefused(denied.value); }
      if ingress.report.None? { return ReportRefused(BindingMismatch); }
      var report := ingress.report.value;
      var reportDigest := config.digest(ReportText(report));
      if !config.verify(state.publicKey, ReportText(report), ingress.signature) { return ReportRefused(InvalidSignature); }
      if report.binding != state.binding { return ReportRefused(BindingMismatch); }
      if report.dataPolicyDigest != state.binding.policyDigest { return ReportRefused(ClassificationRefused); }
      if report.reportSequence in state.reportsBySequence {
        var existing := state.reportsBySequence[report.reportSequence];
        if existing.reportDigest != reportDigest { return ReportRefused(DuplicateConflict); }
        return Acknowledged(true, existing.acknowledgement);
      }
      if report.reportSequence != |state.reportsBySequence| + 1 || report.previousReportDigest != state.previousReportDigest {
        return ReportRefused(SequenceConflict);
      }
      var extending := CandidatesExtend(state, report.receiptChains);
      if !extending { return ReportRefused(ChainConflict); }
      WriteCandidates(state, report.receiptChains);
      var acknowledgement := Acknowledge(config, report, reportDigest, now, receiptId);
      state.reportsBySequence := state.reportsBySequence[report.reportSequence := StoredReport(reportDigest, acknowledgement)];
      state.previousReportDigest := Some(reportDigest);
      state.synchronization := report.synchronization.(
        centrallyAcknowledgedCursor := report.synchronization.durablyEnqueuedCursor,
        lastAcknowledgedAt := if report.synchronization.durablyEnqueuedCursor == 0 then None else Some(now));
      return Acknowledged(false, acknowledgement);
    }

    method CandidatesExtend(state: BindingState, candidates: seq<Chain>) returns (all: bool)
      ensures all <==> AllExtend(config, state.receiptChains, candidates)
    {
      for k := 0 to |candidates|
        invariant forall j :: 0 <= j < k ==>
                    candidates[j].commandId in state.receiptChains && ChainExtends(config, state.receiptChains[candidates[j].commandId], candidates[j])
      {
        if candidates[k].commandId !in state.receiptChains { return false; }
        var extending := ChainExtendsCheck(config, state.receiptChains[candidates[k].commandId], candidates[k]);
        if !extending { return false; }
      }
      return true;
    }

    method WriteCandidates(state: BindingState, candidates: seq<Chain>)
      modifies state`receiptChains
      ensures state.receiptChains == WriteChains(old(state.receiptChains), candidates)
    {
      for k := 0 to |candidates|
        invariant state.receiptChains == WriteChains(old(state.receiptChains), candidates[..k])
      {
        assert candidates[..k + 1][..k] == candidates[..k];
        state.receiptChains := state.receiptChains[candidates[k].commandId := candidates[k]];
      }
      assert candidates[..|candidates|] == candidates;
    }

    method Revoke(bindingId: string) returns (outcome: Outcome)
      requires Valid()
      modifies bindingsById.Values
      ensures Valid() && unchanged(this)
      ensures (View(), outcome) == RevokeIn(old(View()), bindingId)
    {
      if bindingId !in bindingsById { return Threw; }
      var state := bindingsById[bindingId];
      state.revoked := true;
      OneRecordChanged(state);
      return Done;
    }

    method Envelopes(bindingId: string) returns (log: seq<Envelope>)
      ensures log == if bindingId in View().byId then View().byId[bindingId].envelopes else []
    {
      if bindingId in bindingsById { return bindingsById[bindingId].envelopes; }
      return [];
    }
  }
}
