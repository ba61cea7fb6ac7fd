/** What the control plane promises over every run of its operations. */
module ControlPlaneProofs {
  import opened Options
  import opened ControlPlaneModel

  // ----- acceptance keeps the invariant

  lemma EnvelopeLogExtends(c: Config, binding: Binding, envelopes: seq<Envelope>, e: Envelope)
    requires EnvelopeLogOk(c, binding, envelopes)
    requires e == Seal(c, e.unsigned) && e.Sequence() == |envelopes| + 1
    requires e.unsigned.previousEnvelopeDigest == HeadOf(c, envelopes)
    requires e.unsigned.acceptedCommand.binding == binding
    ensures EnvelopeLogOk(c, binding, envelopes + [e])
  {
    var grown := envelopes + [e];
    forall i: nat | i < |grown| ensures EnvelopeOk(c, binding, grown, i) {
      if i < |envelopes| {
        assert EnvelopeOk(c, binding, envelopes, i);
        assert grown[..i] == envelopes[..i];
      } else {
        assert grown[..i] == envelopes;
      }
    }
  }

  lemma CommandIndexExtends(c: Config, commands: map<string, StoredCommand>, envelopes: seq<Envelope>, e: Envelope, ingressDigest: Digest)
    requires CommandIndexOk(c, commands, envelopes)
    requires e.Sequence() == |envelopes| + 1 && e.CommandId() !in commands
    ensures CommandIndexOk(c, commands[e.CommandId() := StoredCommand(ingressDigest, e, c.digest(EnvelopeText(e)))], envelopes + [e])
  {
    var grown := envelopes + [e];
    var indexed := commands[e.CommandId() := StoredCommand(ingressDigest, e, c.digest(EnvelopeText(e)))];
    forall i: nat | i < |grown| ensures Listed(indexed, grown[i]) {
      if i < |envelopes| { assert Listed(commands, envelopes[i]); }
    }
    forall id | id in indexed ensures Indexed(c, indexed, grown, id) {
      if id != e.CommandId() { assert Indexed(c, commands, envelopes, id); }
    }
  }

  lemma LogHeadIs(c: Config, envelopes: seq<Envelope>, e: Envelope)
    ensures HeadOf(c, envelopes + [e]) == Some(c.digest(EnvelopeText(e)))
  {
  }

  lemma NewChainIsOk(
    c: Config, bindingId: string, commands: map<string, StoredCommand>, chains: map<string, Chain>, e: Envelope, ingressDigest: Digest)
    requires ChainsOk(c, bindingId, commands, chains) && e.CommandId() !in commands
    ensures var id := e.CommandId();
            var more := chains[id := Chain(bindingId, id, [CentralEntry(c, bindingId, e)])];
            && ChainsOk(c, bindingId, commands[id := StoredCommand(ingressDigest, e, c.digest(EnvelopeText(e)))], more)
            && ChainsGrow(chains, more)
  {
  }

  lemma NewCommandIsKept(commands: map<string, StoredCommand>, id: string, stored: StoredCommand)
    requires id !in commands
    ensures CommandsKept(commands, commands[id := stored])
  {
  }

  lemma ReportsStayKept(reports: map<nat, StoredReport>)
    ensures ReportsKept(reports, reports)
  {
  }

  lemma RecordCommandKeepsOk(c: Config, s: BindingData, ingressDigest: Digest, e: Envelope)
    requires BindingOk(c, s) && !s.revoked
    requires e == Seal(c, e.unsigned) && e.Sequence() == s.envelopeSequence + 1
    requires e.unsigned.previousEnvelopeDigest == s.previousEnvelopeDigest
    requires e.unsigned.acceptedCommand.binding == s.binding
    requires e.CommandId() !in s.commands
    ensures BindingOk(c, RecordCommand(c, s, ingressDigest, e))
    ensures Grows(s, RecordCommand(c, s, ingressDigest, e))
  {
    hide EnvelopeLogOk, CommandIndexOk, ChainsOk, ReportsOk, CommandsKept, ChainsGrow, ReportsKept, Seal, CentralEntry;
    LogHeadIs(c, s.envelopes, e);
    NewChainIsOk(c, s.binding.bindingId, s.commands, s.receiptChains, e, ingressDigest);
    NewCommandIsKept(s.commands, e.CommandId(), StoredCommand(ingressDigest, e, c.digest(EnvelopeText(e))));
    ReportsStayKept(s.reportsBySequence);
    EnvelopeLogExtends(c, s.binding, s.envelopes, e);
    CommandIndexExtends(c, s.commands, s.envelopes, e, ingressDigest);
  }

  /** A first acceptance records exactly one sealed envelope; every other outcome records nothing. */
  lemma AcceptCommandShape(c: Config, s: BindingData, ingress: CommandIngress, principal: Principal, now: Time, acceptanceId: string)
    ensures var (t, outcome) := AcceptCommandOn(c, s, ingress, principal, now, acceptanceId);
            if outcome.Accepted? && !outcome.replay then
              && !s.revoked && ingress.command.Some?
              && outcome.envelope == Seal(c, outcome.envelope.unsigned)
              && outcome.envelope.Sequence() == s.envelopeSequence + 1
              && outcome.envelope.unsigned.previousEnvelopeDigest == s.previousEnvelopeDigest
              && outcome.envelope.unsigned.acceptedCommand.binding == s.binding
              && outcome.envelope.CommandId() !in s.commands
              && t == RecordCommand(c, s, c.digest(IngressText(ingress.command.value, ingress.connectorId, principal, ingress.repositoryKeyId)), outcome.envelope)
            else t == s
  {
  }

  lemma AcceptCommandKeepsOk(c: Config, s: BindingData, ingress: CommandIngress, principal: Principal, now: Time, acceptanceId: string)
    requires BindingOk(c, s)
    ensures var t := AcceptCommandOn(c, s, ingress, principal, now, acceptanceId).0;
            BindingOk(c, t) && Grows(s, t)
  {
    AcceptCommandShape(c, s, ingress, principal, now, acceptanceId);
    var outcome := AcceptCommandOn(c, s, ingress, principal, now, acceptanceId).1;
    if outcome.Accepted? && !outcome.replay {
      var ingressDigest := c.digest(IngressText(ingress.command.value, ingress.connectorId, principal, ingress.repositoryKeyId));
      RecordCommandKeepsOk(c, s, ingressDigest, outcome.envelope);
    }
  }

  /** What a delivery finds in a binding that keeps the invariant. */
  lemma EnvelopeHasEvidence(c: Config, s: BindingData, i: nat)
    requires BindingOk(c, s) && i < |s.envelopes|
    ensures var id := s.envelopes[i].CommandId();
            && s.envelopes[i].Sequence() == i + 1
            && id in s.receiptChains
            && ChainOk(c, s.binding.bindingId, s.envelopes[i], s.receiptChains[id])
  {
    assert EnvelopeOk(c, s.binding, s.envelopes, i);
    assert Listed(s.commands, s.envelopes[i]);
  }

  /** A delivery either leaves the binding alone or adds the second entry to one chain. */
  lemma DeliveryShape(c: Config, s: BindingData, sequence: int, now: Time)
    ensures var (t, outcome) := RecordDeliveryOn(c, s, sequence, now);
            || (t == s && (outcome.Delivered? ==> |outcome.chain.entries| >= 2))
            || (&& outcome.Delivered? && !s.revoked && 1 <= sequence <= |s.envelopes|
                && s.envelopes[sequence - 1].CommandId() in s.receiptChains
                && (var current := s.receiptChains[s.envelopes[sequence - 1].CommandId()];
                    && |current.entries| == 1
                    && outcome.chain == current.(entries := current.entries + [DeliveryEntry(c, s.binding.bindingId, s.envelopes[sequence - 1], current.entries[0], now)])
                    && t == s.(receiptChains := s.receiptChains[current.commandId := outcome.chain])))
  {
  }

  lemma ChainsAfterDelivery(c: Config, bindingId: string, commands: map<string, StoredCommand>, chains: map<string, Chain>, id: string, entry: Entry)
    requires ChainsOk(c, bindingId, commands, chains) && id in chains && SelfDigested(c, entry)
    ensures var chain := chains[id].(entries := chains[id].entries + [entry]);
            && ChainsOk(c, bindingId, commands, chains[id := chain])
            && ChainsGrow(chains, chains[id := chain])
  {
    assert ChainOk(c, bindingId, commands[id].envelope, chains[id]);
  }

  lemma DeliveryKeepsOk(c: Config, s: BindingData, sequence: int, now: Time)
    requires BindingOk(c, s)
    ensures var t := RecordDeliveryOn(c, s, sequence, now).0; BindingOk(c, t) && Grows(s, t)
  {
    hide RecordDeliveryOn, BindingOk, Grows, ChainsOk, ChainsGrow, DeliveryEntry, ChainOk, SelfDigested;
    DeliveryShape(c, s, sequence, now);
    GrowsReflexive(s);
    if RecordDeliveryOn(c, s, sequence, now).0 != s {
      EnvelopeHasEvidence(c, s, sequence - 1);
      var e := s.envelopes[sequence - 1];
      var chain := s.receiptChains[e.CommandId()];
      var entry := DeliveryEntry(c, s.binding.bindingId, e, chain.entries[0], now);
      ChainsOfBinding(c, s);
      EntriesAreDigested(c, s.binding.bindingId, e, chain.entries[0], now);
      ChainNamesCommand(c, s.binding.bindingId, e, chain);
      ChainsAfterDelivery(c, s.binding.bindingId, s.commands, s.receiptChains, e.CommandId(), entry);
      OnlyChainsGrow(c, s, s.receiptChains[e.CommandId() := chain.(entries := chain.entries + [entry])]);
    }
  }

  lemma ChainsOfBinding(c: Config, s: BindingData)
    requires BindingOk(c, s)
    ensures ChainsOk(c, s.binding.bindingId, s.commands, s.receiptChains)
  {
  }

  lemma EntriesAreDigested(c: Config, bindingId: string, e: Envelope, prior: Entry, now: Time)
    ensures SelfDigested(c, DeliveryEntry(c, bindingId, e, prior, now))
  {
  }

  lemma ChainNamesCommand(c: Config, bindingId: string, e: Envelope, chain: Chain)
    requires ChainOk(c, bindingId, e, chain)
    ensures chain.commandId == e.CommandId()
  {
  }

  /** Changing nothing but the chains, and those only by growth, keeps a binding. */
  lemma OnlyChainsGrow(c: Config, s: BindingData, chains: map<string, Chain>)
    requires BindingOk(c, s) && !s.revoked && ChainsOk(c, s.binding.bindingId, s.commands, chains) && ChainsGrow(s.receiptChains, chains)
    ensures BindingOk(c, s.(receiptChains := chains)) && Grows(s, s.(receiptChains := chains))
  {
    hide EnvelopeLogOk, CommandIndexOk, ChainsOk, ReportsOk, ChainsGrow;
  }

  /** A command is never found without its evidence. */
  lemma DeliveryNeverThrows(c: Config, s: BindingData, sequence: int, now: Time)
    requires BindingOk(c, s)
    ensures !RecordDeliveryOn(c, s, sequence, now).1.MissingEvidence?
  {
    hide BindingOk, DeliveryEntry, CentralEntry, SelfDigested;
    if 1 <= sequence <= |s.envelopes| {
      EnvelopeHasEvidence(c, s, sequence - 1);
    }
  }

  /** Writing the candidates in turn leaves, for each command, either the old chain
      or one of the candidates naming it. */
  lemma {:induction false} WriteChainsEffect(chains: map<string, Chain>, candidates: seq<Chain>, id: string) returns (from: int)
    requires forall k :: 0 <= k < |candidates| ==> candidates[k].commandId in chains
    requires id in chains
    ensures WriteChains(chains, candidates).Keys == chains.Keys
    ensures -1 <= from < |candidates|
    ensures from == -1 ==> WriteChains(chains, candidates)[id] == chains[id]
    ensures from >= 0 ==> candidates[from].commandId == id && WriteChains(chains, candidates)[id] == candidates[from]
  {
    if candidates == [] {
      from := -1;
    } else {
      var n := |candidates| - 1;
      from := WriteChainsEffect(chains, candidates[..n], id);
      if candidates[n].commandId == id {
        from := n;
      }
    }
  }

  lemma NothingIsWritten(c: Config, chains: map<string, Chain>, candidates: seq<Chain>)
    requires chains == map[] && AllExtend(c, chains, candidates)
    ensures WriteChains(chains, candidates) == map[]
  {
  }

  lemma WrittenChainsExtend(c: Config, bindingId: string, commands: map<string, StoredCommand>, chains: map<string, Chain>, candidates: seq<Chain>)
    requires ChainsOk(c, bindingId, commands, chains) && AllExtend(c, chains, candidates)
    ensures ChainsOk(c, bindingId, commands, WriteChains(chains, candidates))
    ensures ChainsGrow(chains, WriteChains(chains, candidates))
  {
    hide WriteChains;
    var written := WriteChains(chains, candidates);
    if chains != map[] {
      var any :| any in chains;
      var _ := WriteChainsEffect(chains, candidates, any);
    } else {
      NothingIsWritten(c, chains, candidates);
    }
    forall id | id in chains
      ensures ChainPrefix(chains[id], written[id]) && ChainOk(c, bindingId, commands[id].envelope, written[id])
    {
      var from := WriteChainsEffect(chains, candidates, id);
      hide ChainOk, ChainExtends, ChainPrefix;
      assert ChainOk(c, bindingId, commands[id].envelope, chains[id]);
      if from >= 0 {
        ExtendingStaysOk(c, bindingId, commands[id].envelope, chains[id], candidates[from]);
      } else {
        SameIsPrefix(chains[id]);
      }
    }
  }

  lemma ExtendingStaysOk(c: Config, bindingId: string, e: Envelope, current: Chain, candidate: Chain)
    requires ChainOk(c, bindingId, e, current) && ChainExtends(c, current, candidate)
    ensures ChainOk(c, bindingId, e, candidate) && ChainPrefix(current, candidate)
  {
    hide MakeEntry, CentralEntry;
    assert current.entries == candidate.entries[..|current.entries|];
  }

  lemma SameIsPrefix(chain: Chain)
    ensures ChainPrefix(chain, chain)
  {
  }

  lemma ReportLogExtends(c: Config, reports: map<nat, StoredReport>, head: Option<Digest>, report: Report, stored: StoredReport)
    requires ReportsOk(c, reports, head)
    requires report.reportSequence == |reports| + 1 && report.previousReportDigest == head
    requires stored.reportDigest == c.digest(ReportText(report))
    requires stored.acknowledgement.unsigned.reportSequence == report.reportSequence
    ensures ReportsOk(c, reports[report.reportSequence := stored], Some(stored.reportDigest))
  {
    var log :| ReportLogOk(c, reports, head, log);
    var grown := log + [report];
    var recorded := reports[report.reportSequence := stored];
    forall i: nat | i < |grown| ensures ReportOk(c, recorded, grown, i) {
      if i < |log| {
        assert ReportOk(c, reports, log, i);
        assert grown[..i] == log[..i];
      } else {
        assert grown[..i] == log;
      }
    }
    assert report.reportSequence !in reports;
    assert ReportLogOk(c, recorded, Some(stored.reportDigest), grown);
  }

  /** A first acknowledgement records the report and its chains; every other outcome records nothing. */
  lemma AcceptReportShape(c: Config, s: BindingData, ingress: ReportIngress, now: Time, receiptId: string)
    ensures var (t, outcome) := AcceptReportOn(c, s, ingress, now, receiptId);
            if outcome.Acknowledged? && !outcome.again then
              && !s.revoked && ingress.report.Some?
              && (var report := ingress.report.value;
                  && report.reportSequence == |s.reportsBySequence| + 1
                  && report.previousReportDigest == s.previousReportDigest
                  && AllExtend(c, s.receiptChains, report.receiptChains)
                  && outcome.acknowledgement == Acknowledge(c, report, c.digest(ReportText(report)), now, receiptId)
                  && t == RecordReport(s, report, StoredReport(c.digest(ReportText(report)), outcome.acknowledgement), now))
            else t == s
  {
  }

  lemma AcceptReportKeepsOk(c: Config, s: BindingData, ingress: ReportIngress, now: Time, receiptId: string)
    requires BindingOk(c, s)
    ensures var t := AcceptReportOn(c, s, ingress, now, receiptId).0;
            BindingOk(c, t) && Grows(s, t)
  {
    AcceptReportShape(c, s, ingress, now, receiptId);
    var outcome := AcceptReportOn(c, s, ingress, now, receiptId).1;
    if outcome.Acknowledged? && !outcome.again {
      var report := ingress.report.value;
      WrittenChainsExtend(c, s.binding.bindingId, s.commands, s.receiptChains, report.receiptChains);
      var stored := StoredReport(c.digest(ReportText(report)), outcome.acknowledgement);
      ReportLogExtends(c, s.reportsBySequence, s.previousReportDigest, report, stored);
      assert forall n :: n in s.reportsBySequence ==> n <= |s.reportsBySequence|;
    }
  }

  // ----- one step of the plane

  lemma PutKeepsIndexes(p: Plane, s: BindingData)
    requires IndexesOk(p) && s.binding.bindingId in p.byId && p.byId[s.binding.bindingId].binding == s.binding
    ensures IndexesOk(Put(p, s))
  {
  }

  lemma RegisterKeepsIndexes(c: Config, p: Plane, binding: Binding, publicKey: string)
    requires IndexesOk(p)
    ensures IndexesOk(RegisterIn(c, p, binding, publicKey).0)
  {
  }

  lemma PutKeepsOk(c: Config, p: Plane, s: BindingData)
    requires PlaneOk(c, p) && s.binding.bindingId in p.byId
    requires BindingOk(c, s) && Grows(p.byId[s.binding.bindingId], s)
    ensures PlaneOk(c, Put(p, s)) && PlaneGrows(p, Put(p, s))
  {
    hide BindingOk, Grows;
    var q := Put(p, s);
    GrowingKeepsBinding(p.byId[s.binding.bindingId], s);
    PutKeepsIndexes(p, s);
    forall id | id in q.byId ensures BindingOkAt(c, q, id) {
      if id != s.binding.bindingId { SameBindingStaysOk(c, p, q, id); }
    }
    forall id | id in p.byId ensures GrowsAt(p, q, id) {
      if id != s.binding.bindingId { GrowsReflexive(p.byId[id]); }
    }
  }

  lemma GrowingKeepsBinding(s: BindingData, t: BindingData)
    requires Grows(s, t)
    ensures t.binding == s.binding
  {
  }

  lemma GrowsReflexive(s: BindingData)
    ensures Grows(s, s)
  {
  }

  lemma NewBindingOk(c: Config, binding: Binding, publicKey: string)
    ensures BindingOk(c, NewBinding(binding, publicKey))
  {
    var s := NewBinding(binding, publicKey);
    assert ReportLogOk(c, s.reportsBySequence, s.previousReportDigest, []);
  }

  lemma RegisterKeepsOk(c: Config, p: Plane, binding: Binding, publicKey: string)
    requires PlaneOk(c, p)
    ensures PlaneOk(c, RegisterIn(c, p, binding, publicKey).0) && PlaneGrows(p, RegisterIn(c, p, binding, publicKey).0)
  {
    hide BindingOk, Grows, NewBinding, IndexesOk, PlaneGrows;
    var q := RegisterIn(c, p, binding, publicKey).0;
    RegisterKeepsIndexes(c, p, binding, publicKey);
    forall id | id in q.byId ensures BindingOkAt(c, q, id) {
      if id in p.byId {
        SameBindingStaysOk(c, p, q, id);
      } else {
        NewBindingOk(c, binding, publicKey);
      }
    }
    BindingsStay(p, q);
  }

  lemma BindingsStay(p: Plane, q: Plane)
    requires forall id :: id in p.byId ==> id in q.byId && q.byId[id] == p.byId[id]
    requires forall key :: key in p.byKey ==> key in q.byKey && q.byKey[key] == p.byKey[key]
    ensures PlaneGrows(p, q)
  {
    hide Grows;
    forall id | id in p.byId ensures GrowsAt(p, q, id) { GrowsReflexive(p.byId[id]); }
  }

  lemma SameBindingStaysOk(c: Config, p: Plane, q: Plane, id: string)
    requires PlaneOk(c, p) && id in p.byId && id in q.byId && q.byId[id] == p.byId[id]
    ensures BindingOkAt(c, q, id)
  {
    assert BindingOkAt(c, p, id);
  }

  lemma RevokeKeepsOk(c: Config, p: Plane, bindingId: string)
    requires PlaneOk(c, p)
    ensures PlaneOk(c, RevokeIn(p, bindingId).0) && PlaneGrows(p, RevokeIn(p, bindingId).0)
  {
    hide BindingOk, Grows, Put;
    if bindingId in p.byId {
      assert BindingOkAt(c, p, bindingId);
      RevokingKeepsBinding(c, p.byId[bindingId]);
      PutKeepsOk(c, p, p.byId[bindingId].(revoked := true));
    } else {
      PlaneGrowsReflexive(p);
    }
  }

  lemma RevokingKeepsBinding(c: Config, s: BindingData)
    requires BindingOk(c, s)
    ensures BindingOk(c, s.(revoked := true)) && Grows(s, s.(revoked := true))
  {
    hide EnvelopeLogOk, CommandIndexOk, ChainsOk, ReportsOk;
  }

  lemma PlaneGrowsReflexive(p: Plane)
    ensures PlaneGrows(p, p)
  {
    forall id | id in p.byId ensures GrowsAt(p, p, id) { GrowsReflexive(p.byId[id]); }
  }

  lemma CommandStepKeepsOk(c: Config, p: Plane, ingress: CommandIngress, principal: Principal, now: Time, id: string)
    requires PlaneOk(c, p)
    ensures var q := AcceptCommandIn(c, p, ingress, principal, now, id).0; PlaneOk(c, q) && PlaneGrows(p, q)
  {
    hide AcceptCommandOn, Put, BindingOk, Grows;
    if ingress.repositoryKeyId in p.byKey {
      var bindingId := p.byKey[ingress.repositoryKeyId];
      assert BindingOkAt(c, p, bindingId);
      AcceptCommandKeepsOk(c, p.byId[bindingId], ingress, principal, now, id);
      GrowingKeepsBinding(p.byId[bindingId], AcceptCommandOn(c, p.byId[bindingId], ingress, principal, now, id).0);
      PutKeepsOk(c, p, AcceptCommandOn(c, p.byId[bindingId], ingress, principal, now, id).0);
    } else {
      PlaneGrowsReflexive(p);
    }
  }

  lemma DeliveryStepKeepsOk(c: Config, p: Plane, bindingId: string, sequence: int, now: Time)
    requires PlaneOk(c, p)
    ensures var (q, outcome) := RecordDeliveryIn(c, p, bindingId, sequence, now);
            PlaneOk(c, q) && PlaneGrows(p, q) && !outcome.MissingEvidence?
  {
    hide RecordDeliveryOn, Put, BindingOk, Grows;
    if bindingId in p.byId {
      assert BindingOkAt(c, p, bindingId);
      DeliveryKeepsOk(c, p.byId[bindingId], sequence, now);
      DeliveryNeverThrows(c, p.byId[bindingId], sequence, now);
      GrowingKeepsBinding(p.byId[bindingId], RecordDeliveryOn(c, p.byId[bindingId], sequence, now).0);
      PutKeepsOk(c, p, RecordDeliveryOn(c, p.byId[bindingId], sequence, now).0);
    } else {
      PlaneGrowsReflexive(p);
    }
  }

  lemma ReportStepKeepsOk(c: Config, p: Plane, ingress: ReportIngress, now: Time, id: string)
    requires PlaneOk(c, p)
    ensures var q := AcceptReportIn(c, p, ingress, now, id).0; PlaneOk(c, q) && PlaneGrows(p, q)
  {
    hide AcceptReportOn, Put, BindingOk, Grows;
    if ingress.repositoryKeyId in p.byKey {
      var bindingId := p.byKey[ingress.repositoryKeyId];
      assert BindingOkAt(c, p, bindingId);
      AcceptReportKeepsOk(c, p.byId[bindingId], ingress, now, id);
      GrowingKeepsBinding(p.byId[bindingId], AcceptReportOn(c, p.byId[bindingId], ingress, now, id).0);
      PutKeepsOk(c, p, AcceptReportOn(c, p.byId[bindingId], ingress, now, id).0);
    } else {
      PlaneGrowsReflexive(p);
    }
  }

  /** Every operation keeps the invariant and only ever adds to what is recorded,
      and no delivery ends in a thrown error. */
  lemma StepKeepsOk(c: Config, p: Plane, op: Op)
    requires PlaneOk(c, p)
    ensures PlaneOk(c, Step(c, p, op).0)
    ensures PlaneGrows(p, Step(c, p, op).0)
    ensures Step(c, p, op).1 != OfDelivery(MissingEvidence)
  {
    hide AcceptCommandIn, RecordDeliveryIn, AcceptReportIn, PlaneOk, PlaneGrows, Put, NewBinding;
    match op
    case Register(binding, publicKey) => RegisterKeepsOk(c, p, binding, publicKey);
    case AcceptCommand(ingress, principal, now, id) => CommandStepKeepsOk(c, p, ingress, principal, now, id);
    case RecordDelivery(bindingId, sequence, now) => DeliveryStepKeepsOk(c, p, bindingId, sequence, now);
    case AcceptReport(ingress, now, id) => ReportStepKeepsOk(c, p, ingress, now, id);
    case Revoke(bindingId) => RevokeKeepsOk(c, p, bindingId);
  }

  lemma GrowsTransitive(s: BindingData, t: BindingData, u: BindingData)
    requires Grows(s, t) && Grows(t, u)
    ensures Grows(s, u)
  {
    forall k | k in s.receiptChains
      ensures k in u.receiptChains && ChainPrefix(s.receiptChains[k], u.receiptChains[k])
    {
      assert k in t.receiptChains;
    }
    forall k | k in s.commands ensures k in u.commands && u.commands[k] == s.commands[k] {
      assert k in t.commands;
    }
    forall k | k in s.reportsBySequence ensures k in u.reportsBySequence && u.reportsBySequence[k] == s.reportsBySequence[k] {
      assert k in t.reportsBySequence;
    }
  }

  lemma PlaneGrowsTransitive(p: Plane, q: Plane, r: Plane)
    requires PlaneGrows(p, q) && PlaneGrows(q, r)
    ensures PlaneGrows(p, r)
  {
    forall id | id in p.byId ensures GrowsAt(p, r, id) {
      assert GrowsAt(p, q, id);
      assert GrowsAt(q, r, id);
      GrowsTransitive(p.byId[id], q.byId[id], r.byId[id]);
    }
  }

  /** The invariant and monotonicity over every run, from every state that has them. */
  lemma {:induction false} RunKeepsOk(c: Config, p: Plane, ops: seq<Op>)
    requires PlaneOk(c, p)
    ensures PlaneOk(c, Run(c, p, ops))
    ensures PlaneGrows(p, Run(c, p, ops))
    decreases |ops|
  {
    if ops == [] {
      PlaneGrowsReflexive(p);
    } else {
      StepKeepsOk(c, p, ops[0]);
      var q := Step(c, p, ops[0]).0;
      RunKeepsOk(c, q, ops[1..]);
      PlaneGrowsTransitive(p, q, Run(c, q, ops[1..]));
    }
  }

  /** Every state reachable from an empty control plane has gapless, hash-linked
      logs, matching indexes and evidence for every command. */
  lemma EveryReachablePlaneIsOk(c: Config, ops: seq<Op>)
    ensures PlaneOk(c, Run(c, EMPTY, ops))
  {
    RunKeepsOk(c, EMPTY, ops);
  }

  // ----- consequences over runs

  /** An earlier receipt chain is a prefix of every later one, and the receipt at
      position 1 never changes once present. */
  lemma ReceiptChainsOnlyGrow(c: Config, p: Plane, ops: seq<Op>, bindingId: string, commandId: string)
    requires PlaneOk(c, p)
    requires bindingId in p.byId && commandId in p.byId[bindingId].receiptChains
    ensures var q := Run(c, p, ops);
            && bindingId in q.byId && commandId in q.byId[bindingId].receiptChains
            && p.byId[bindingId].receiptChains[commandId].entries <= q.byId[bindingId].receiptChains[commandId].entries
            && (|p.byId[bindingId].receiptChains[commandId].entries| >= 2 ==>
                  q.byId[bindingId].receiptChains[commandId].entries[1] == p.byId[bindingId].receiptChains[commandId].entries[1])
  {
    RunKeepsOk(c, p, ops);
    var q := Run(c, p, ops);
    assert GrowsAt(p, q, bindingId);
    assert ChainPrefix(p.byId[bindingId].receiptChains[commandId], q.byId[bindingId].receiptChains[commandId]);
  }

  /** A delivery is refused for expiry, revocation or an unknown sequence and for
      nothing else, and the chain it returns carries the delivery evidence of the
      envelope unless that position had been reported already. */
  lemma DeliveryOutcomeOf(c: Config, s: BindingData, sequence: int, now: Time)
    requires BindingOk(c, s)
    ensures var (t, outcome) := RecordDeliveryOn(c, s, sequence, now);
            && (outcome.Delivered? <==> !s.revoked && 1 <= sequence <= |s.envelopes| && now < s.envelopes[sequence - 1].ExpiresAt())
            && (outcome.Delivered? ==>
                  var e := s.envelopes[sequence - 1];
                  && e.CommandId() in s.receiptChains && e.CommandId() in t.receiptChains
                  && outcome.chain == t.receiptChains[e.CommandId()]
                  && |outcome.chain.entries| >= 2
                  && outcome.chain.entries[0] == CentralEntry(c, s.binding.bindingId, e)
                  && (|s.receiptChains[e.CommandId()].entries| == 1 ==>
                        outcome.chain.entries[1] == DeliveryEntry(c, s.binding.bindingId, e, outcome.chain.entries[0], now)))
  {
    hide BindingOk, DeliveryEntry, CentralEntry, SelfDigested;
    if 1 <= sequence <= |s.envelopes| {
      EnvelopeHasEvidence(c, s, sequence - 1);
    }
  }

  /** The recorded receipt is the one a delivery returns, and it is there to stay. */
  lemma DeliveredIsRecorded(c: Config, p: Plane, bindingId: string, sequence: int, now: Time)
    requires PlaneOk(c, p) && RecordDeliveryIn(c, p, bindingId, sequence, now).1.Delivered?
    ensures var (q, outcome) := RecordDeliveryIn(c, p, bindingId, sequence, now);
            && PlaneOk(c, q) && PlaneGrows(p, q)
            && bindingId in p.byId && bindingId in q.byId
            && 1 <= sequence <= |p.byId[bindingId].envelopes|
            && |outcome.chain.entries| >= 2
            && (var id := p.byId[bindingId].envelopes[sequence - 1].CommandId();
                && id in p.byId[bindingId].receiptChains && id in q.byId[bindingId].receiptChains
                && p.byId[bindingId].receiptChains[id].entries <= outcome.chain.entries
                && outcome.chain == q.byId[bindingId].receiptChains[id])
  {
    DeliveryStepKeepsOk(c, p, bindingId, sequence, now);
    assert BindingOkAt(c, p, bindingId);
    DeliveryOutcomeOf(c, p.byId[bindingId], sequence, now);
    DeliveryKeepsOk(c, p.byId[bindingId], sequence, now);
  }

  /** Any two deliveries of one envelope, however far apart in the run, return
      chains with the same receipt at position 1. */
  lemma DeliveriesReturnOneReceipt(c: Config, p: Plane, bindingId: string, sequence: int, now: Time, ops: seq<Op>, later: Time)
    requires PlaneOk(c, p)
    requires RecordDeliveryIn(c, p, bindingId, sequence, now).1.Delivered?
    requires RecordDeliveryIn(c, Run(c, RecordDeliveryIn(c, p, bindingId, sequence, now).0, ops), bindingId, sequence, later).1.Delivered?
    ensures var (p1, first) := RecordDeliveryIn(c, p, bindingId, sequence, now);
            var second := RecordDeliveryIn(c, Run(c, p1, ops), bindingId, sequence, later).1;
            && |first.chain.entries| >= 2
            && first.chain.entries <= second.chain.entries
            && first.chain.entries[1] == second.chain.entries[1]
  {
    hide RecordDeliveryIn, PlaneOk, Run, PlaneGrows, ChainPrefix;
    DeliveredIsRecorded(c, p, bindingId, sequence, now);
    var p1 := RecordDeliveryIn(c, p, bindingId, sequence, now).0;
    RunKeepsOk(c, p1, ops);
    var q := Run(c, p1, ops);
    DeliveredIsRecorded(c, q, bindingId, sequence, later);
    var id := p.byId[bindingId].envelopes[sequence - 1].CommandId();
    PlaneGrowsTransitive(p, p1, q);
    EnvelopesStay(p, q, bindingId, sequence);
    ChainsStay(p1, q, bindingId, id);
  }

  lemma EnvelopesStay(p: Plane, q: Plane, bindingId: string, sequence: int)
    requires PlaneGrows(p, q) && bindingId in p.byId && 1 <= sequence <= |p.byId[bindingId].envelopes|
    ensures bindingId in q.byId && sequence <= |q.byId[bindingId].envelopes|
    ensures q.byId[bindingId].envelopes[sequence - 1] == p.byId[bindingId].envelopes[sequence - 1]
  {
    assert GrowsAt(p, q, bindingId);
  }

  lemma ChainsStay(p: Plane, q: Plane, bindingId: string, id: string)
    requires PlaneGrows(p, q) && bindingId in p.byId && id in p.byId[bindingId].receiptChains
    ensures bindingId in q.byId && id in q.byId[bindingId].receiptChains
    ensures p.byId[bindingId].receiptChains[id].entries <= q.byId[bindingId].receiptChains[id].entries
  {
    assert GrowsAt(p, q, bindingId);
    assert ChainPrefix(p.byId[bindingId].receiptChains[id], q.byId[bindingId].receiptChains[id]);
  }

  lemma PutOfHeldChangesNothing(p: Plane, s: BindingData)
    requires s.binding.bindingId in p.byId && p.byId[s.binding.bindingId] == s
    ensures Put(p, s) == p
  {
    assert p.byId[s.binding.bindingId := s] == p.byId;
  }

  /** Refusals, replays and thrown errors leave the whole plane as it was. */
  lemma RefusalsChangeNothing(c: Config, p: Plane, op: Op)
    requires IndexesOk(p)
    requires ChangesNothing(Step(c, p, op).1)
    ensures Step(c, p, op).0 == p
  {
    match op
    case Register(_, _) =>
    case AcceptCommand(ingress, principal, now, id) =>
      if ingress.repositoryKeyId in p.byKey {
        var s := p.byId[p.byKey[ingress.repositoryKeyId]];
        AcceptCommandShape(c, s, ingress, principal, now, id);
        PutOfHeldChangesNothing(p, s);
      }
    case RecordDelivery(bindingId, sequence, now) =>
      if bindingId in p.byId {
        DeliveryShape(c, p.byId[bindingId], sequence, now);
        PutOfHeldChangesNothing(p, p.byId[bindingId]);
      }
    case AcceptReport(ingress, now, id) =>
      if ingress.repositoryKeyId in p.byKey {
        var s := p.byId[p.byKey[ingress.repositoryKeyId]];
        AcceptReportShape(c, s, ingress, now, id);
        PutOfHeldChangesNothing(p, s);
      }
    case Revoke(_) =>
  }

  /** An operation changes the binding it is addressed to and no other. */
  lemma StepIsLocal(c: Config, p: Plane, op: Op, bindingId: string)
    requires IndexesOk(p) && bindingId in p.byId && Target(p, op) != Some(bindingId)
    ensures bindingId in Step(c, p, op).0.byId && Step(c, p, op).0.byId[bindingId] == p.byId[bindingId]
  {
    hide AcceptCommandOn, RecordDeliveryOn, AcceptReportOn;
    match op
    case Register(_, _) =>
    case AcceptCommand(ingress, principal, now, id) =>
      if ingress.repositoryKeyId in p.byKey { CommandKeepsBinding(c, p.byId[p.byKey[ingress.repositoryKeyId]], ingress, principal, now, id); }
    case RecordDelivery(other, sequence, now) =>
      if other in p.byId { DeliveryKeepsBinding(c, p.byId[other], sequence, now); }
    case AcceptReport(ingress, now, id) =>
      if ingress.repositoryKeyId in p.byKey { ReportKeepsBinding(c, p.byId[p.byKey[ingress.repositoryKeyId]], ingress, now, id); }
    case Revoke(_) =>
  }

  lemma CommandKeepsBinding(c: Config, s: BindingData, ingress: CommandIngress, principal: Principal, now: Time, id: string)
    ensures AcceptCommandOn(c, s, ingress, principal, now, id).0.binding == s.binding
  {
  }

  lemma DeliveryKeepsBinding(c: Config, s: BindingData, sequence: int, now: Time)
    ensures RecordDeliveryOn(c, s, sequence, now).0.binding == s.binding
  {
  }

  lemma ReportKeepsBinding(c: Config, s: BindingData, ingress: ReportIngress, now: Time, id: string)
    ensures AcceptReportOn(c, s, ingress, now, id).0.binding == s.binding
  {
  }

  /** A revoked binding is the same in every later state. */
  lemma RevokedIsFrozen(c: Config, p: Plane, ops: seq<Op>, bindingId: string)
    requires PlaneOk(c, p) && bindingId in p.byId && p.byId[bindingId].revoked
    ensures bindingId in Run(c, p, ops).byId && Run(c, p, ops).byId[bindingId] == p.byId[bindingId]
  {
    RunKeepsOk(c, p, ops);
    assert GrowsAt(p, Run(c, p, ops), bindingId);
  }

  /** A submission that was accepted by this binding, now or earlier. */
  ghost predicate CommandHeld(c: Config, s: BindingData, ingress: CommandIngress, principal: Principal, envelope: Envelope) {
    && ingress.command.Some?
    && s.binding.connectorId == ingress.connectorId
    && s.binding.tenantId == principal.tenant
    && ingress.command.value.repositoryId == s.binding.repositoryId
    && c.verify(s.publicKey, CommandText(ingress.command.value), ingress.signature)
    && ingress.command.value.commandId in s.commands
    && s.commands[ingress.command.value.commandId].envelope == envelope
    && s.commands[ingress.command.value.commandId].ingressDigest ==
         c.digest(IngressText(ingress.command.value, ingress.connectorId, principal, ingress.repositoryKeyId))
  }

  lemma AcceptedIsHeld(c: Config, s: BindingData, ingress: CommandIngress, principal: Principal, now: Time, id: string)
    requires AcceptCommandOn(c, s, ingress, principal, now, id).1.Accepted?
    ensures var (t, outcome) := AcceptCommandOn(c, s, ingress, principal, now, id);
            CommandHeld(c, t, ingress, principal, outcome.envelope)
  {
  }

  lemma HeldStaysHeld(c: Config, s: BindingData, t: BindingData, ingress: CommandIngress, principal: Principal, envelope: Envelope)
    requires CommandHeld(c, s, ingress, principal, envelope) && Grows(s, t)
    ensures CommandHeld(c, t, ingress, principal, envelope)
  {
    assert ingress.command.value.commandId in t.commands;
  }

  lemma HeldIsReplayed(c: Config, s: BindingData, ingress: CommandIngress, principal: Principal, envelope: Envelope, now: Time, id: string)
    requires CommandHeld(c, s, ingress, principal, envelope)
    ensures AcceptCommandOn(c, s, ingress, principal, now, id) ==
              (s, if s.revoked then CommandRefused(Revoked) else Accepted(true, envelope))
  {
  }

  lemma CommandHeldAfterRun(c: Config, p: Plane, ingress: CommandIngress, principal: Principal, now: Time, id: string, ops: seq<Op>)
    returns (bindingId: string)
    requires PlaneOk(c, p)
    requires AcceptCommandIn(c, p, ingress, principal, now, id).1.Accepted?
    ensures var (p1, first) := AcceptCommandIn(c, p, ingress, principal, now, id);
            var q := Run(c, p1, ops);
            && IndexesOk(q)
            && ingress.repositoryKeyId in q.byKey && q.byKey[ingress.repositoryKeyId] == bindingId && bindingId in q.byId
            && CommandHeld(c, q.byId[bindingId], ingress, principal, first.envelope)
  {
    hide Run, AcceptCommandOn, CommandHeld, Grows, BindingOk;
    bindingId := p.byKey[ingress.repositoryKeyId];
    CommandStepKeepsOk(c, p, ingress, principal, now, id);
    AcceptedIsHeld(c, p.byId[bindingId], ingress, principal, now, id);
    CommandKeepsBinding(c, p.byId[bindingId], ingress, principal, now, id);
    var (p1, first) := AcceptCommandIn(c, p, ingress, principal, now, id);
    RunKeepsOk(c, p1, ops);
    var q := Run(c, p1, ops);
    assert GrowsAt(p1, q, bindingId);
    HeldStaysHeld(c, p1.byId[bindingId], q.byId[bindingId], ingress, principal, first.envelope);
  }

  /** Replaying an accepted command at any later time, past its expiry included and
      under any request id, returns the very envelope and changes nothing, until
      the binding is revoked; from then on it is refused. */
  lemma CommandReplayIsIdempotent(
    c: Config, p: Plane, ingress: CommandIngress, principal: Principal, now: Time, id: string, ops: seq<Op>,
    requestId: string, later: Time, laterId: string)
    requires PlaneOk(c, p)
    requires AcceptCommandIn(c, p, ingress, principal, now, id).1.Accepted?
    ensures var (p1, first) := AcceptCommandIn(c, p, ingress, principal, now, id);
            var q := Run(c, p1, ops);
            var again := ingress.(requestId := requestId);
            && ingress.repositoryKeyId in q.byKey && q.byKey[ingress.repositoryKeyId] in q.byId
            && AcceptCommandIn(c, q, again, principal, later, laterId) ==
                 (q, if q.byId[q.byKey[ingress.repositoryKeyId]].revoked then CommandRefused(Revoked) else Accepted(true, first.envelope))
  {
    var bindingId := CommandHeldAfterRun(c, p, ingress, principal, now, id, ops);
    var (p1, first) := AcceptCommandIn(c, p, ingress, principal, now, id);
    var q := Run(c, p1, ops);
    HeldIsReplayed(c, q.byId[bindingId], ingress.(requestId := requestId), principal, first.envelope, later, laterId);
    PutOfHeldChangesNothing(q, q.byId[bindingId]);
  }

  /** A later submission under a recorded identity is accepted only as a replay of
      the recorded one: same command, connector, principal and key. Only here is
      the digest assumed free of collisions. */
  lemma ReusedIdentityIsReplayOrRefusal(
    c: Config, p: Plane, ingress: CommandIngress, principal: Principal, now: Time, id: string, ops: seq<Op>,
    other: CommandIngress, otherPrincipal: Principal, later: Time, laterId: string)
    requires PlaneOk(c, p)
    requires AcceptCommandIn(c, p, ingress, principal, now, id).1.Accepted?
    requires other.repositoryKeyId == ingress.repositoryKeyId && other.command.Some? && ingress.command.Some?
    requires other.command.value.commandId == ingress.command.value.commandId
    requires forall a, b :: c.digest(a) == c.digest(b) ==> a == b
    ensures var (p1, first) := AcceptCommandIn(c, p, ingress, principal, now, id);
            var outcome := AcceptCommandIn(c, Run(c, p1, ops), other, otherPrincipal, later, laterId).1;
            outcome.Accepted? ==>
              && other.command == ingress.command && otherPrincipal == principal && other.connectorId == ingress.connectorId
              && outcome == Accepted(true, first.envelope)
  {
    var bindingId := CommandHeldAfterRun(c, p, ingress, principal, now, id, ops);
    var (p1, first) := AcceptCommandIn(c, p, ingress, principal, now, id);
    var q := Run(c, p1, ops);
    OnlyTheHeldSubmissionReplays(c, q.byId[bindingId], ingress, principal, first.envelope, other, otherPrincipal, later, laterId);
  }

  lemma OnlyTheHeldSubmissionReplays(
    c: Config, s: BindingData, ingress: CommandIngress, principal: Principal, envelope: Envelope,
    other: CommandIngress, otherPrincipal: Principal, later: Time, laterId: string)
    requires CommandHeld(c, s, ingress, principal, envelope)
    requires other.command.Some? && other.command.value.commandId == ingress.command.value.commandId
    requires other.repositoryKeyId == ingress.repositoryKeyId
    requires forall a, b :: c.digest(a) == c.digest(b) ==> a == b
    ensures var outcome := AcceptCommandOn(c, s, other, otherPrincipal, later, laterId).1;
            outcome.Accepted? ==>
              && other.command == ingress.command && otherPrincipal == principal && other.connectorId == ingress.connectorId
              && outcome == Accepted(true, envelope)
  {
    var recorded := IngressText(ingress.command.value, ingress.connectorId, principal, ingress.repositoryKeyId);
    var submitted := IngressText(other.command.value, other.connectorId, otherPrincipal, other.repositoryKeyId);
    if c.digest(recorded) == c.digest(submitted) {
      assert recorded == submitted;
    }
  }

  ghost predicate ReportHeld(c: Config, s: BindingData, ingress: ReportIngress, acknowledgement: Acknowledgement) {
    && ingress.report.Some?
    && s.binding.connectorId == ingress.connectorId
    && c.verify(s.publicKey, ReportText(ingress.report.value), ingress.signature)
    && ingress.report.value.binding == s.binding
    && ingress.report.value.dataPolicyDigest == s.binding.policyDigest
    && ingress.report.value.reportSequence in s.reportsBySequence
    && s.reportsBySequence[ingress.report.value.reportSequence] == StoredReport(c.digest(ReportText(ingress.report.value)), acknowledgement)
  }

  lemma AcknowledgedIsHeld(c: Config, s: BindingData, ingress: ReportIngress, now: Time, id: string)
    requires AcceptReportOn(c, s, ingress, now, id).1.Acknowledged?
    ensures var (t, outcome) := AcceptReportOn(c, s, ingress, now, id);
            ReportHeld(c, t, ingress, outcome.acknowledgement)
  {
  }

  lemma HeldReportIsReplayed(c: Config, s: BindingData, ingress: ReportIngress, acknowledgement: Acknowledgement, now: Time, id: string)
    requires ReportHeld(c, s, ingress, acknowledgement)
    ensures AcceptReportOn(c, s, ingress, now, id) ==
              (s, if s.revoked then ReportRefused(Revoked) else Acknowledged(true, acknowledgement))
  {
  }

  lemma ReportHeldAfterRun(c: Config, p: Plane, ingress: ReportIngress, now: Time, id: string, ops: seq<Op>)
    returns (bindingId: string)
    requires PlaneOk(c, p)
    requires AcceptReportIn(c, p, ingress, now, id).1.Acknowledged?
    ensures var (p1, first) := AcceptReportIn(c, p, ingress, now, id);
            var q := Run(c, p1, ops);
            && IndexesOk(q)
            && ingress.repositoryKeyId in q.byKey && q.byKey[ingress.repositoryKeyId] == bindingId && bindingId in q.byId
            && ReportHeld(c, q.byId[bindingId], ingress, first.acknowledgement)
  {
    hide Run, AcceptReportOn, ReportHeld, Grows, BindingOk;
    bindingId := p.byKey[ingress.repositoryKeyId];
    ReportStepKeepsOk(c, p, ingress, now, id);
    ReportKeepsBinding(c, p.byId[bindingId], ingress, now, id);
    AcknowledgedIsHeld(c, p.byId[bindingId], ingress, now, id);
    var (p1, first) := AcceptReportIn(c, p, ingress, now, id);
    RunKeepsOk(c, p1, ops);
    var q := Run(c, p1, ops);
    assert GrowsAt(p1, q, bindingId);
    HeldReportStays(c, p1.byId[bindingId], q.byId[bindingId], ingress, first.acknowledgement);
  }

  lemma HeldReportStays(c: Config, s: BindingData, t: BindingData, ingress: ReportIngress, acknowledgement: Acknowledgement)
    requires ReportHeld(c, s, ingress, acknowledgement) && Grows(s, t)
    ensures ReportHeld(c, t, ingress, acknowledgement)
  {
    assert ingress.report.value.reportSequence in t.reportsBySequence;
  }

  /** The same for reports: a replayed report gets its first acknowledgement again. */
  lemma ReportReplayIsIdempotent(
    c: Config, p: Plane, ingress: ReportIngress, now: Time, id: string, ops: seq<Op>, later: Time, laterId: string)
    requires PlaneOk(c, p)
    requires AcceptReportIn(c, p, ingress, now, id).1.Acknowledged?
    ensures var (p1, first) := AcceptReportIn(c, p, ingress, now, id);
            var q := Run(c, p1, ops);
            && ingress.repositoryKeyId in q.byKey && q.byKey[ingress.repositoryKeyId] in q.byId
            && AcceptReportIn(c, q, ingress, later, laterId) ==
                 (q, if q.byId[q.byKey[ingress.repositoryKeyId]].revoked then ReportRefused(Revoked) else Acknowledged(true, first.acknowledgement))
  {
    var bindingId := ReportHeldAfterRun(c, p, ingress, now, id, ops);
    var (p1, first) := AcceptReportIn(c, p, ingress, now, id);
    var q := Run(c, p1, ops);
    HeldReportIsReplayed(c, q.byId[bindingId], ingress, first.acknowledgement, later, laterId);
    PutOfHeldChangesNothing(q, q.byId[bindingId]);
  }
}
