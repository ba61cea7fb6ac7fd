/** The in-process transport: a connector's calls against control plane and network. */
module Transport {
  import opened Options
  import opened ControlPlaneModel
  import opened ControlPlane
  import opened DeliveryNetworkModel
  import opened DeliveryNetworkProofs
  import opened DeliveryNetwork
  import opened TransportModel

  /** `bytesMatch` says whether the sent bytes are the encoding of the report. */
  datatype SignedReport = SignedReport(report: Report, bytesMatch: bool, signingKeyId: string, signature: Signature)

  datatype EnrolOutcome = Enrolled(transport: InProcessControlPlaneTransport) | EnrolThrew

  datatype SendOutcome = Sent(acknowledgement: Acknowledgement) | SendThrew

  class InProcessControlPlaneTransport {
    const authority: ReferenceControlPlane
    const simulator: DeterministicControlPlaneSimulator
    const binding: Binding
    var sentReports: seq<SignedReport>
    var acknowledgements: seq<Acknowledgement>

    ghost predicate Valid()
      reads this, simulator, simulator.clock, authority, authority.bindingsById.Values
    {
      simulator.authority == authority && authority.Valid() && SystemOk(authority.config, simulator.View())
    }

    constructor (authority: ReferenceControlPlane, simulator: DeterministicControlPlaneSimulator, binding: Binding)
      requires simulator.authority == authority && authority.Valid() && SystemOk(authority.config, simulator.View())
      ensures Valid()
      ensures this.authority == authority && this.simulator == simulator && this.binding == binding
      ensures sentReports == [] && acknowledgements == []
    {
      hide SystemOk, ReferenceControlPlane.Valid, ReferenceControlPlane.View;
      this.authority := authority;
      this.simulator := simulator;
      this.binding := binding;
      sentReports := [];
      acknowledgements := [];
    }

    /** Construction registers the binding's revocation epoch; when the simulator
        holds a different one it throws, and there is no transport. */
    static method Enrol(authority: ReferenceControlPlane, simulator: DeterministicControlPlaneSimulator, binding: Binding)
      returns (outcome: EnrolOutcome)
      requires simulator.authority == authority && authority.Valid() && SystemOk(authority.config, simulator.View())
      modifies simulator
      ensures simulator.authority == authority && SystemOk(authority.config, simulator.View())
      ensures (simulator.NetView(), if outcome.Enrolled? then NetDone else NetThrew)
              == RegisterEpochIn(old(simulator.NetView()), binding.bindingId, binding.revocationEpoch)
      ensures outcome.Enrolled? ==>
                var transport := outcome.transport;
                && fresh(transport) && transport.Valid()
                && transport.authority == authority && transport.simulator == simulator && transport.binding == binding
                && transport.sentReports == [] && transport.acknowledgements == []
                && binding.bindingId in simulator.revocationEpochs
                && simulator.revocationEpochs[binding.bindingId] == binding.revocationEpoch
    {
      hide SystemOk, RegisterEpochIn, ReferenceControlPlane.Valid, ReferenceControlPlane.View;
      EnrollingKeepsOk(authority.config, simulator.View(), binding);
      var registered := simulator.RegisterBinding(binding.bindingId, binding.revocationEpoch);
      if registered == NetThrew { return EnrolThrew; }
      var transport := new InProcessControlPlaneTransport(authority, simulator, binding);
      return Enrolled(transport);
    }

    method ReceiveCommands(request: ReceiveRequest) returns (outcome: ReceiveOutcome)
      requires Valid()
      modifies simulator, authority.bindingsById.Values
      ensures Valid() && unchanged(authority)
      ensures (simulator.View(), outcome) == ReceiveIn(authority.config, old(simulator.View()), binding.bindingId, request)
    {
      hide SystemOk, HasEnvelope, Pairs, EnqueueIn, PollIn, ReferenceControlPlane.Valid, ReferenceControlPlane.View;
      var bindingId := request.bindingId;
      if bindingId != binding.bindingId || request.aborted || !request.deadlineIsTime || bindingId in simulator.partitions { return ReceiveThrew; }
      if request.sessionId == "" || request.afterSequence < 0 { return ReceiveThrew; }
      ghost var c, before := authority.config, simulator.View();
      ReceiveIsSound(c, before, binding.bindingId, request);
      EnqueueKeepsOk(c, before, bindingId, request.afterSequence);
      EnqueueLeavesPlane(c, before, bindingId, request.afterSequence);
      var _ := simulator.Enqueue(bindingId, request.afterSequence);
      assert simulator.View() == EnqueueIn(c, before, bindingId, request.afterSequence).0;
      ReachableIsPollable(c, simulator.View());
      var polled := simulator.Poll(bindingId, request.limit, request.afterSequence);
      if !polled.Deliveries? { return ReceiveThrew; }
      if bindingId !in simulator.revocationEpochs { return ReceiveThrew; }
      return Received(simulator.revocationEpochs[bindingId], CommandsOf(polled.deliveries));
    }

    /** A report that passes the transport's own checks counts as sent even when the
        control plane refuses it; only an acknowledged one is recorded as such. */
    method SendReport(input: SignedReport, aborted: bool, deadlineIsTime: bool, receiptId: string) returns (outcome: SendOutcome)
      requires Valid()
      modifies this, authority.bindingsById.Values
      ensures Valid() && unchanged(authority)
      ensures var admitted := CallAdmitted(old(simulator.View()), binding.bindingId, input.report.binding.bindingId, aborted, deadlineIsTime)
                              && input.signingKeyId == binding.repositoryKeyId && input.bytesMatch;
              var (plane, answer) := AcceptReportIn(authority.config, old(authority.View()),
                                       ReportIngress(input.signingKeyId, binding.connectorId, Some(input.report), input.signature),
                                       simulator.clock.currentMs, receiptId);
              && sentReports == old(sentReports) + (if admitted then [input] else [])
              && acknowledgements == old(acknowledgements) + (if admitted && answer.Acknowledged? then [answer.acknowledgement] else [])
              && outcome == (if admitted && answer.Acknowledged? then Sent(answer.acknowledgement) else SendThrew)
              && authority.View() == if admitted then plane else old(authority.View())
    {
      hide SystemOk, AcceptReportIn, ReferenceControlPlane.Valid, ReferenceControlPlane.View;
      if input.report.binding.bindingId != binding.bindingId || aborted || !deadlineIsTime || input.report.binding.bindingId in simulator.partitions { return SendThrew; }
      if input.signingKeyId != binding.repositoryKeyId { return SendThrew; }
      if !input.bytesMatch { return SendThrew; }
      sentReports := sentReports + [input];
      ghost var ingress := ReportIngress(input.signingKeyId, binding.connectorId, Some(input.report), input.signature);
      ReportingKeepsOk(authority.config, simulator.View(), ingress, simulator.clock.currentMs, receiptId);
      var answer := authority.AcceptReport(ReportIngress(input.signingKeyId, binding.connectorId, Some(input.report), input.signature),
                                           simulator.clock.currentMs, receiptId);
      if !answer.Acknowledged? { return SendThrew; }
      acknowledgements := acknowledgements + [answer.acknowledgement];
      return Sent(answer.acknowledgement);
    }
  }

  lemma EnrollingKeepsOk(c: Config, sys: System, binding: Binding)
    requires SystemOk(c, sys)
    ensures var (net, outcome) := RegisterEpochIn(sys.net, binding.bindingId, binding.revocationEpoch);
            && SystemOk(c, System(sys.plane, net)) && outcome in {NetDone, NetThrew}
            && (outcome == NetDone ==>
                  binding.bindingId in net.revocationEpochs && net.revocationEpochs[binding.bindingId] == binding.revocationEpoch)
  {
    hide SystemOk;
    SystemStepKeepsOk(c, sys, RegisterEpoch(binding.bindingId, binding.revocationEpoch));
  }

  lemma ReportingKeepsOk(c: Config, sys: System, ingress: ReportIngress, now: Time, receiptId: string)
    requires SystemOk(c, sys)
    ensures SystemOk(c, sys.(plane := AcceptReportIn(c, sys.plane, ingress, now, receiptId).0))
  {
    hide SystemOk, AcceptReportIn;
    SystemStepKeepsOk(c, sys, Central(AcceptReport(ingress, now, receiptId)));
  }

  lemma EnqueueLeavesPlane(c: Config, sys: System, bindingId: string, after: int)
    ensures EnqueueIn(c, sys, bindingId, after).0.plane == sys.plane
  {
  }
}
