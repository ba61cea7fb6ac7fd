/** Receiving commands through the network, and what a connector can rely on. */
module TransportModel {
  import opened ControlPlaneModel
  import opened ControlPlaneProofs
  import opened DeliveryNetworkModel
  import opened DeliveryNetworkProofs

  datatype CommandDelivery = CommandDelivery(envelope: Envelope, receiptEntry: Entry)

  /** `deadlineIsTime` is false for a deadline that does not parse. */
  datatype ReceiveRequest = ReceiveRequest(
    bindingId: string, sessionId: string, afterSequence: int, limit: int, aborted: bool, deadlineIsTime: bool)

  datatype ReceiveOutcome = Received(revocationEpoch: nat, deliveries: seq<CommandDelivery>) | ReceiveThrew

  predicate CallAdmitted(sys: System, enrolled: string, bindingId: string, aborted: bool, deadlineIsTime: bool) {
    bindingId == enrolled && !aborted && deadlineIsTime && bindingId !in sys.net.partitions
  }

  /** A delivery becomes a command when it was not refused and has a second receipt entry. */
  function CommandsOf(deliveries: seq<Delivery>): seq<CommandDelivery> {
    if deliveries == [] then []
    else
      var last := deliveries[|deliveries| - 1];
      CommandsOf(deliveries[..|deliveries| - 1]) +
      (if last.result.Delivered? && |last.result.chain.entries| > 1 then [CommandDelivery(last.envelope, last.result.chain.entries[1])] else [])
  }

  function ReceiveIn(c: Config, sys: System, enrolled: string, request: ReceiveRequest): (System, ReceiveOutcome) {
    if !CallAdmitted(sys, enrolled, request.bindingId, request.aborted, request.deadlineIsTime) then (sys, ReceiveThrew)
    else if request.sessionId == "" || request.afterSequence < 0 then (sys, ReceiveThrew)
    else
      var queued := EnqueueIn(c, sys, request.bindingId, request.afterSequence).0;
      var (polled, outcome) := PollIn(c, queued, request.bindingId, request.limit, request.afterSequence);
      if !outcome.Deliveries? || request.bindingId !in polled.net.revocationEpochs then (polled, ReceiveThrew)
      else (polled, Received(polled.net.revocationEpochs[request.bindingId], CommandsOf(outcome.deliveries)))
  }

  // ----- the results of delivering a list of frames

  lemma DeliveryKeepsLogs(c: Config, p: Plane, bindingId: string, sequence: int, now: Time, b: string)
    requires IndexesOk(p)
    ensures var q := RecordDeliveryIn(c, p, bindingId, sequence, now).0;
            && EnvelopesIn(q, b) == EnvelopesIn(p, b)
            && (b in p.byId ==> b in q.byId && q.byId[b].revoked == p.byId[b].revoked)
  {
    if bindingId in p.byId { DeliveryShape(c, p.byId[bindingId], sequence, now); }
  }

  /** What one result says: it is for its frame and envelope, it is a chain exactly
      when the envelope is unexpired and the binding unrevoked, and then the receipt
      at position 1 is the one recorded in `q`. */
  ghost predicate ResultOk(p: Plane, q: Plane, f: Frame, d: Delivery, now: Time) {
    && HasEnvelope(p, f) && f.bindingId in p.byId && f.bindingId in q.byId
    && d.frame == f
    && d.envelope == EnvelopesIn(p, f.bindingId)[f.sequence - 1]
    && (d.result.Delivered? <==> !p.byId[f.bindingId].revoked && now < d.envelope.ExpiresAt())
    && (d.result.Delivered? ==>
          && |d.result.chain.entries| >= 2
          && d.envelope.CommandId() in q.byId[f.bindingId].receiptChains
          && d.result.chain.entries <= q.byId[f.bindingId].receiptChains[d.envelope.CommandId()].entries)
  }

  lemma ResultStaysOk(c: Config, p: Plane, q: Plane, r: Plane, f: Frame, d: Delivery, now: Time)
    requires ResultOk(p, q, f, d, now) && PlaneGrows(q, r)
    ensures ResultOk(p, r, f, d, now)
  {
    assert GrowsAt(q, r, f.bindingId);
    if d.result.Delivered? {
      assert ChainPrefix(q.byId[f.bindingId].receiptChains[d.envelope.CommandId()], r.byId[f.bindingId].receiptChains[d.envelope.CommandId()]);
    }
  }

  lemma DeliveredChain(c: Config, p: Plane, f: Frame, now: Time)
    requires PlaneOk(c, p) && HasEnvelope(p, f) && f.bindingId in p.byId
    requires RecordDeliveryIn(c, p, f.bindingId, f.sequence, now).1.Delivered?
    ensures var (q, outcome) := RecordDeliveryIn(c, p, f.bindingId, f.sequence, now);
            var id := EnvelopesIn(p, f.bindingId)[f.sequence - 1].CommandId();
            && f.bindingId in q.byId && id in q.byId[f.bindingId].receiptChains
            && |outcome.chain.entries| >= 2 && outcome.chain == q.byId[f.bindingId].receiptChains[id]
  {
    DeliveredIsRecorded(c, p, f.bindingId, f.sequence, now);
  }

  lemma OneResult(c: Config, p: Plane, before: Plane, f: Frame, now: Time)
    requires PlaneOk(c, before) && HasEnvelope(p, f) && f.bindingId in p.byId && f.bindingId in before.byId
    requires EnvelopesIn(before, f.bindingId) == EnvelopesIn(p, f.bindingId)
    requires before.byId[f.bindingId].revoked == p.byId[f.bindingId].revoked
    ensures var (q, outcome) := RecordDeliveryIn(c, before, f.bindingId, f.sequence, now);
            ResultOk(p, q, f, Delivery(f, EnvelopesIn(p, f.bindingId)[f.sequence - 1], outcome), now)
  {
    DeliveredExactlyWhen(c, before, f.bindingId, f.sequence, now);
    DeliveryKeepsLogs(c, before, f.bindingId, f.sequence, now, f.bindingId);
    if RecordDeliveryIn(c, before, f.bindingId, f.sequence, now).1.Delivered? {
      DeliveredChain(c, before, f, now);
    }
  }

  lemma DeliveredExactlyWhen(c: Config, p: Plane, bindingId: string, sequence: int, now: Time)
    requires PlaneOk(c, p) && bindingId in p.byId && 1 <= sequence <= |EnvelopesIn(p, bindingId)|
    ensures RecordDeliveryIn(c, p, bindingId, sequence, now).1.Delivered? <==>
              !p.byId[bindingId].revoked && now < EnvelopesIn(p, bindingId)[sequence - 1].ExpiresAt()
  {
    assert BindingOkAt(c, p, bindingId);
    DeliveryOutcomeOf(c, p.byId[bindingId], sequence, now);
  }

  lemma DeliveryKeepsIndexes(c: Config, p: Plane, bindingId: string, sequence: int, now: Time)
    requires IndexesOk(p)
    ensures IndexesOk(RecordDeliveryIn(c, p, bindingId, sequence, now).0)
  {
    if bindingId in p.byId {
      DeliveryShape(c, p.byId[bindingId], sequence, now);
      PutKeepsIndexes(p, RecordDeliveryOn(c, p.byId[bindingId], sequence, now).0);
    }
  }

  lemma {:induction false} DeliverAllKeepsLogs(c: Config, p: Plane, due: seq<Frame>, now: Time, b: string)
    requires IndexesOk(p)
    requires forall f :: f in due ==> HasEnvelope(p, f)
    ensures var (q, deliveries) := DeliverAll(c, p, due, now);
            && IndexesOk(q) && |deliveries| == |due|
            && EnvelopesIn(q, b) == EnvelopesIn(p, b)
            && (b in p.byId ==> b in q.byId && q.byId[b].revoked == p.byId[b].revoked)
  {
    if due != [] {
      var last := |due| - 1;
      DeliverAllKeepsLogs(c, p, due[..last], now, b);
      var before := DeliverAll(c, p, due[..last], now).0;
      DeliveryKeepsIndexes(c, before, due[last].bindingId, due[last].sequence, now);
      DeliveryKeepsLogs(c, before, due[last].bindingId, due[last].sequence, now, b);
    }
  }

  /** The k-th result of delivering a list of frames is for its k-th frame, and its
      receipt is the one recorded at the end. */
  lemma {:induction false} DeliverAllResult(c: Config, p: Plane, due: seq<Frame>, now: Time, k: nat)
    requires PlaneOk(c, p) && k < |due|
    requires forall f :: f in due ==> HasEnvelope(p, f)
    ensures var (q, deliveries) := DeliverAll(c, p, due, now);
            |deliveries| == |due| && ResultOk(p, q, due[k], deliveries[k], now)
  {
    hide PlaneOk, RecordDeliveryIn, ResultOk, DeliverAll, PlaneGrows, HasEnvelope;
    var last := |due| - 1;
    var f := due[last];
    assert f in due;
    DeliverAllUnfolds(c, p, due, now);
    HeldEnvelopeIsOfBinding(c, p, f);
    DeliverAllKeepsLogs(c, p, due[..last], now, f.bindingId);
    DeliverAllRuns(c, p, due[..last], now);
    var (before, earlier) := DeliverAll(c, p, due[..last], now);
    if k == last {
      OneResult(c, p, before, f, now);
    } else {
      DeliverAllResult(c, p, due[..last], now, k);
      DeliveryStepKeepsOk(c, before, f.bindingId, f.sequence, now);
      ResultStaysOk(c, p, before, RecordDeliveryIn(c, before, f.bindingId, f.sequence, now).0, due[k], earlier[k], now);
    }
  }

  lemma DeliverAllUnfolds(c: Config, p: Plane, due: seq<Frame>, now: Time)
    requires due != [] && forall f :: f in due ==> HasEnvelope(p, f)
    ensures var last := |due| - 1;
            var f := due[last];
            var (before, earlier) := DeliverAll(c, p, due[..last], now);
            var (q, outcome) := RecordDeliveryIn(c, before, f.bindingId, f.sequence, now);
            HasEnvelope(p, f)
            && DeliverAll(c, p, due, now) == (q, earlier + [Delivery(f, EnvelopesIn(p, f.bindingId)[f.sequence - 1], outcome)])
  {
    hide RecordDeliveryIn;
  }

  lemma HeldEnvelopeIsOfBinding(c: Config, p: Plane, f: Frame)
    requires PlaneOk(c, p) && HasEnvelope(p, f)
    ensures IndexesOk(p) && f.bindingId in p.byId
  {
  }

  ghost predicate Yields(delivery: Delivery, d: CommandDelivery) {
    && delivery.result.Delivered? && |delivery.result.chain.entries| > 1
    && d == CommandDelivery(delivery.envelope, delivery.result.chain.entries[1])
  }

  /** The commands are exactly what the deliveries that returned a receipt yield. */
  lemma {:induction false} CommandsOfDeliveries(deliveries: seq<Delivery>, d: CommandDelivery)
    ensures d in CommandsOf(deliveries) <==> exists k :: 0 <= k < |deliveries| && Yields(deliveries[k], d)
  {
    if deliveries != [] {
      var last := |deliveries| - 1;
      CommandsOfDeliveries(deliveries[..last], d);
      if k :| 0 <= k < |deliveries[..last]| && Yields(deliveries[..last][k], d) {
        assert Yields(deliveries[k], d);
      }
      if k :| 0 <= k < |deliveries| && Yields(deliveries[k], d) {
        if k < last { assert Yields(deliveries[..last][k], d); }
      }
    }
  }

  // ----- end to end

  /** The command a connector gets for one recorded sequence. */
  ghost predicate IsCommandFor(q: Plane, bindingId: string, sequence: nat, d: CommandDelivery) {
    && 1 <= sequence <= |EnvelopesIn(q, bindingId)|
    && d.envelope == EnvelopesIn(q, bindingId)[sequence - 1]
    && bindingId in q.byId
    && d.envelope.CommandId() in q.byId[bindingId].receiptChains
    && |q.byId[bindingId].receiptChains[d.envelope.CommandId()].entries| >= 2
    && d.receiptEntry == q.byId[bindingId].receiptChains[d.envelope.CommandId()].entries[1]
  }

  /** Everything received is an unexpired envelope past the cursor, with its recorded
      receipt, on an unrevoked binding. */
  ghost predicate SoundFor(q: Plane, bindingId: string, after: int, now: Time, d: CommandDelivery) {
    && bindingId in q.byId && !q.byId[bindingId].revoked
    && d.envelope.Sequence() > after
    && now < d.envelope.ExpiresAt()
    && IsCommandFor(q, bindingId, d.envelope.Sequence(), d)
  }

  /** A poll delivers exactly the frames it takes. */
  lemma PollDelivers(c: Config, sys: System, bindingId: string, limit: int, after: int)
    requires SystemOk(c, sys) && 1 <= limit <= 256 && bindingId !in sys.net.partitions
    ensures var taken := TakeDue(sys.net.queue, bindingId, limit, after, sys.net.now);
            var (t, outcome) := PollIn(c, sys, bindingId, limit, after);
            && (forall f :: f in taken.due ==> HasEnvelope(sys.plane, f))
            && (t.plane, outcome) == (DeliverAll(c, sys.plane, taken.due, sys.net.now).0, Deliveries(DeliverAll(c, sys.plane, taken.due, sys.net.now).1))
  {
    DueFramesHaveEnvelopes(c, sys, bindingId, limit, after);
  }

  lemma YieldedIsSound(p: Plane, q: Plane, f: Frame, delivery: Delivery, after: int, now: Time, d: CommandDelivery)
    requires ResultOk(p, q, f, delivery, now) && Due(f, f.bindingId, after, now) && Yields(delivery, d)
    requires EnvelopesIn(q, f.bindingId) == EnvelopesIn(p, f.bindingId) && q.byId[f.bindingId].revoked == p.byId[f.bindingId].revoked
    requires Numbered(EnvelopesIn(p, f.bindingId))
    ensures SoundFor(q, f.bindingId, after, now, d)
    ensures IsCommandFor(q, f.bindingId, f.sequence, d)
  {
  }

  lemma PollIsSound(c: Config, sys: System, bindingId: string, limit: int, after: int, d: CommandDelivery)
    requires SystemOk(c, sys) && PollIn(c, sys, bindingId, limit, after).1.Deliveries?
    requires d in CommandsOf(PollIn(c, sys, bindingId, limit, after).1.deliveries)
    ensures SoundFor(PollIn(c, sys, bindingId, limit, after).0.plane, bindingId, after, sys.net.now, d)
  {
    PollDelivers(c, sys, bindingId, limit, after);
    var taken := TakeDue(sys.net.queue, bindingId, limit, after, sys.net.now);
    var (q, deliveries) := DeliverAll(c, sys.plane, taken.due, sys.net.now);
    CommandsOfDeliveries(deliveries, d);
    var k :| 0 <= k < |deliveries| && Yields(deliveries[k], d);
    DeliverAllKeepsLogs(c, sys.plane, taken.due, sys.net.now, bindingId);
    DeliverAllResult(c, sys.plane, taken.due, sys.net.now, k);
    TakeDueSplits(sys.net.queue, bindingId, limit, after, sys.net.now);
    EnvelopesAreNumbered(c, sys.plane, bindingId);
    assert taken.due[k] in taken.due;
    YieldedIsSound(sys.plane, q, taken.due[k], deliveries[k], after, sys.net.now, d);
  }

  /** With room for every due frame, each due frame whose envelope is unexpired is
      received; none is left out for want of a receipt. */
  lemma PollIsComplete(c: Config, sys: System, bindingId: string, limit: int, after: int, f: Frame) returns (d: CommandDelivery)
    requires SystemOk(c, sys) && 1 <= limit <= 256 && bindingId !in sys.net.partitions
    requires bindingId in sys.plane.byId && !sys.plane.byId[bindingId].revoked
    requires |DueFrames(sys.net.queue, bindingId, after, sys.net.now)| <= limit
    requires f in DueFrames(sys.net.queue, bindingId, after, sys.net.now) && HasEnvelope(sys.plane, f) && f.bindingId == bindingId
    requires sys.net.now < EnvelopesIn(sys.plane, bindingId)[f.sequence - 1].ExpiresAt()
    ensures var (t, outcome) := PollIn(c, sys, bindingId, limit, after);
            outcome.Deliveries? && d in CommandsOf(outcome.deliveries) && IsCommandFor(t.plane, bindingId, f.sequence, d)
  {
    hide TakeDue, DeliverAll, DueFrames, CommandsOf, PollIn, SystemOk, IsCommandFor, SoundFor, ResultOk, HasEnvelope, Numbered, EnvelopesIn;
    PlaneOfSystem(c, sys);
    PollDelivers(c, sys, bindingId, limit, after);
    var taken := TakeDue(sys.net.queue, bindingId, limit, after, sys.net.now);
    TakesTheFirstDue(sys.net.queue, bindingId, limit, after, sys.net.now);
    var k :| 0 <= k < |taken.due| && taken.due[k] == f;
    var (q, deliveries) := DeliverAll(c, sys.plane, taken.due, sys.net.now);
    DeliverAllKeepsLogs(c, sys.plane, taken.due, sys.net.now, bindingId);
    DeliverAllResult(c, sys.plane, taken.due, sys.net.now, k);
    EnvelopesAreNumbered(c, sys.plane, bindingId);
    DueFramesAreTheDueOnes(sys.net.queue, bindingId, after, sys.net.now);
    d := YieldedHere(sys.plane, q, f, deliveries[k], sys.net.now);
    CommandsOfDeliveries(deliveries, d);
    YieldedIsSound(sys.plane, q, f, deliveries[k], after, sys.net.now, d);
  }

  lemma PlaneOfSystem(c: Config, sys: System)
    requires SystemOk(c, sys)
    ensures PlaneOk(c, sys.plane)
  {
  }

  lemma YieldedHere(p: Plane, q: Plane, f: Frame, delivery: Delivery, now: Time) returns (d: CommandDelivery)
    requires ResultOk(p, q, f, delivery, now) && HasEnvelope(p, f) && now < EnvelopesIn(p, f.bindingId)[f.sequence - 1].ExpiresAt()
    requires f.bindingId in p.byId && !p.byId[f.bindingId].revoked
    ensures Yields(delivery, d)
  {
    d := CommandDelivery(delivery.envelope, delivery.result.chain.entries[1]);
  }

  lemma {:induction false} DueFramesAreTheDueOnes(queue: seq<Frame>, b: string, after: int, now: Time)
    ensures forall f :: f in DueFrames(queue, b, after, now) <==> f in queue && Due(f, b, after, now)
  {
    if queue != [] {
      DueFramesAreTheDueOnes(queue[1..], b, after, now);
      assert queue == [queue[0]] + queue[1..];
    }
  }

  /** A sequence that some frame can deliver now, or that nothing is queued for. */
  ghost predicate Reachable(net: Network, bindingId: string, sequence: nat) {
    || (exists f :: f in net.queue && Pair(f) == (bindingId, sequence) && f.availableAt <= net.now)
    || (bindingId, sequence) !in Pairs(net.queue)
  }

  /** What enqueueing made of the network: the old frames, then new ones. */
  ghost predicate Enqueued(net: Network, t: Network, bindingId: string, n: nat, after: int) {
    && net.queue <= t.queue && t.now == net.now && t.scheduled == Pairs(t.queue)
    && Covered(t.scheduled, bindingId, n, after)
    && forall k {:trigger t.queue[k]} :: |net.queue| <= k < |t.queue| ==> NewlyQueued(t.queue[k], net, bindingId, n, after)
  }

  lemma EnqueueInEffect(c: Config, sys: System, bindingId: string, after: int)
    requires SystemOk(c, sys) && bindingId !in sys.net.revoked
    ensures var queued := EnqueueIn(c, sys, bindingId, after).0;
            && Enqueued(sys.net, queued.net, bindingId, |EnvelopesIn(sys.plane, bindingId)|, after)
            && queued.plane == sys.plane
            && queued.net == sys.net.(queue := queued.net.queue, scheduled := queued.net.scheduled, nextFrame := queued.net.nextFrame)
  {
    EnvelopesAreNumbered(c, sys.plane, bindingId);
    EnqueueAllAppends(c, sys.net, bindingId, EnvelopesIn(sys.plane, bindingId), after);
    EnqueueAllCovers(c, sys.plane, sys.net, bindingId, EnvelopesIn(sys.plane, bindingId), after);
  }

  /** Enqueueing makes every reachable sequence past the cursor due. */
  lemma EnqueuedIsDue(net: Network, t: Network, bindingId: string, n: nat, after: int, sequence: nat) returns (f: Frame)
    requires Enqueued(net, t, bindingId, n, after)
    requires after < sequence <= n && sequence >= 1 && Reachable(net, bindingId, sequence)
    ensures f in t.queue && Due(f, bindingId, after, t.now) && f.sequence == sequence
  {
    if (bindingId, sequence) in Pairs(net.queue) {
      f :| f in net.queue && Pair(f) == (bindingId, sequence) && f.availableAt <= net.now;
    } else {
      assert (bindingId, sequence) in t.scheduled;
      f :| f in t.queue && Pair(f) == (bindingId, sequence);
      var added := t.queue[|net.queue|..];
      assert t.queue == net.queue + added;
      var k :| 0 <= k < |added| && added[k] == f;
      assert NewlyQueued(t.queue[|net.queue| + k], net, bindingId, n, after);
    }
  }

  lemma EnqueueTakesNoTime(c: Config, sys: System, bindingId: string, after: int)
    ensures var t := EnqueueIn(c, sys, bindingId, after).0; t.plane == sys.plane && t.net.now == sys.net.now
  {
    EnqueueAllAppends(c, sys.net, bindingId, EnvelopesIn(sys.plane, bindingId), after);
  }

  /** Receiving keeps the invariant and never returns anything at or below the
      cursor, expired, without its recorded receipt, or from a revoked binding. */
  lemma ReceiveIsSound(c: Config, sys: System, enrolled: string, request: ReceiveRequest)
    requires SystemOk(c, sys)
    ensures var (t, outcome) := ReceiveIn(c, sys, enrolled, request);
            && SystemOk(c, t) && PlaneGrows(sys.plane, t.plane)
            && (outcome.Received? ==> forall d :: d in outcome.deliveries ==>
                  SoundFor(t.plane, request.bindingId, request.afterSequence, sys.net.now, d))
  {
    hide SystemOk, PlaneGrows, EnqueueIn, PollIn, SoundFor, CommandsOf;
    PlaneGrowsReflexive(sys.plane);
    EnqueueKeepsOk(c, sys, request.bindingId, request.afterSequence);
    var queued := EnqueueIn(c, sys, request.bindingId, request.afterSequence).0;
    EnqueueTakesNoTime(c, sys, request.bindingId, request.afterSequence);
    PollKeepsOk(c, queued, request.bindingId, request.limit, request.afterSequence);
    var (t, outcome) := ReceiveIn(c, sys, enrolled, request);
    if outcome.Received? {
      forall d | d in outcome.deliveries ensures SoundFor(t.plane, request.bindingId, request.afterSequence, sys.net.now, d) {
        PollIsSound(c, queued, request.bindingId, request.limit, request.afterSequence, d);
      }
    }
  }

  /** On an unrevoked, connected binding whose due frames fit the limit, every
      unexpired sequence past the cursor that had an available frame, or none, is
      received by an admitted call. */
  lemma ReceiveIsComplete(c: Config, sys: System, enrolled: string, request: ReceiveRequest, sequence: nat) returns (d: CommandDelivery)
    requires SystemOk(c, sys)
    requires CallAdmitted(sys, enrolled, request.bindingId, request.aborted, request.deadlineIsTime)
    requires request.sessionId != "" && request.afterSequence >= 0 && 1 <= request.limit <= 256
    requires enrolled in sys.net.revocationEpochs && enrolled !in sys.net.revoked
    requires enrolled in sys.plane.byId && !sys.plane.byId[enrolled].revoked
    requires var queued := EnqueueIn(c, sys, enrolled, request.afterSequence).0;
             |DueFrames(queued.net.queue, enrolled, request.afterSequence, queued.net.now)| <= request.limit
    requires request.afterSequence < sequence <= |EnvelopesIn(sys.plane, enrolled)|
    requires sys.net.now < EnvelopesIn(sys.plane, enrolled)[sequence - 1].ExpiresAt()
    requires Reachable(sys.net, enrolled, sequence)
    ensures var (t, outcome) := ReceiveIn(c, sys, enrolled, request);
            && outcome.Received?
            && d in outcome.deliveries && IsCommandFor(t.plane, enrolled, sequence, d)
  {
    hide SystemOk, EnqueueIn, PollIn, DueFrames, Reachable, Enqueued, IsCommandFor, EnvelopesIn, CommandsOf;
    EnqueueKeepsOk(c, sys, enrolled, request.afterSequence);
    EnqueueInEffect(c, sys, enrolled, request.afterSequence);
    var queued := EnqueueIn(c, sys, enrolled, request.afterSequence).0;
    var f := EnqueuedIsDue(sys.net, queued.net, enrolled, |EnvelopesIn(sys.plane, enrolled)|, request.afterSequence, sequence);
    DueFramesAreTheDueOnes(queued.net.queue, enrolled, request.afterSequence, queued.net.now);
    EnqueuedHaveEnvelopes(c, queued, f);
    d := PollIsComplete(c, queued, enrolled, request.limit, request.afterSequence, f);
    PollKeepsEpochs(c, queued, enrolled, request.limit, request.afterSequence);
  }

  lemma EnqueuedHaveEnvelopes(c: Config, sys: System, f: Frame)
    requires SystemOk(c, sys) && f in sys.net.queue
    ensures HasEnvelope(sys.plane, f)
  {
    hide PlaneOk, HasEnvelope, RevokedInPlane;
    assert FrameOk(c, sys.plane, f);
  }

  lemma PollKeepsEpochs(c: Config, sys: System, bindingId: string, limit: int, after: int)
    ensures PollIn(c, sys, bindingId, limit, after).0.net.revocationEpochs == sys.net.revocationEpochs
  {
    hide TakeDue, DeliverAll, Released, HasEnvelope;
  }

  /** Once a binding is revoked in the control plane, no receive in any later state
      returns a delivery. */
  lemma NothingIsReceivedAfterRevocation(c: Config, sys: System, ops: seq<NetOp>, enrolled: string, request: ReceiveRequest)
    requires SystemOk(c, sys)
    requires enrolled in sys.plane.byId && sys.plane.byId[enrolled].revoked
    ensures var outcome := ReceiveIn(c, RunSystem(c, sys, ops), enrolled, request).1;
            outcome.Received? ==> outcome.deliveries == []
  {
    hide SystemOk, RunSystem, EnqueueIn, PollIn, CommandsOf, IsCommandFor;
    var later := RunSystem(c, sys, ops);
    var (t, outcome) := ReceiveIn(c, later, enrolled, request);
    assert outcome.Received? && outcome.deliveries != [] ==> outcome.deliveries[0] in outcome.deliveries;
    RunSystemKeepsOk(c, sys, ops);
    ReceiveIsSound(c, later, enrolled, request);
    hide Grows;
    RevokedStays(sys.plane, later.plane, enrolled);
    RevokedStays(later.plane, t.plane, enrolled);
  }

  lemma RevokedStays(p: Plane, q: Plane, bindingId: string)
    requires PlaneGrows(p, q) && bindingId in p.byId && p.byId[bindingId].revoked
    ensures bindingId in q.byId && q.byId[bindingId].revoked
  {
    assert GrowsAt(p, q, bindingId);
  }

  /** Revoking through the network revokes in the control plane. */
  lemma RevocationReachesThePlane(c: Config, sys: System, bindingId: string)
    requires RevokeBindingIn(sys, bindingId).1.NetDone?
    requires IndexesOk(sys.plane)
    ensures var t := RevokeBindingIn(sys, bindingId).0; bindingId in t.plane.byId && t.plane.byId[bindingId].revoked
  {
  }

  /** However an envelope is duplicated, delayed, reordered or dropped in between,
      two receives of it give the same envelope and the same receipt. */
  lemma RedeliveryIsIdentical(
    c: Config, sys: System, enrolled: string, first: ReceiveRequest, ops: seq<NetOp>, second: ReceiveRequest, a: CommandDelivery, b: CommandDelivery)
    requires SystemOk(c, sys)
    requires var (t, outcome) := ReceiveIn(c, sys, enrolled, first);
             && outcome.Received? && a in outcome.deliveries
             && (var again := ReceiveIn(c, RunSystem(c, t, ops), enrolled, second).1;
                 again.Received? && b in again.deliveries)
    requires a.envelope.Sequence() == b.envelope.Sequence()
    ensures a == b
  {
    hide RunSystem, SystemOk;
    ReceiveIsSound(c, sys, enrolled, first);
    var t := ReceiveIn(c, sys, enrolled, first).0;
    assert SoundFor(t.plane, enrolled, first.afterSequence, sys.net.now, a);
    RunSystemKeepsOk(c, t, ops);
    var u := RunSystem(c, t, ops);
    ReceiveIsSound(c, u, enrolled, second);
    var v := ReceiveIn(c, u, enrolled, second).0;
    assert SoundFor(v.plane, enrolled, second.afterSequence, u.net.now, b);
    PlaneGrowsTransitive(t.plane, u.plane, v.plane);
    assert GrowsAt(t.plane, v.plane, enrolled);
    assert ChainPrefix(t.plane.byId[enrolled].receiptChains[a.envelope.CommandId()], v.plane.byId[enrolled].receiptChains[a.envelope.CommandId()]);
  }
}
