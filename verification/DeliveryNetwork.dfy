/** The deterministic simulator as the mutable object it is, each operation proved
    to take the step its function on values takes. */
module DeliveryNetwork {
  import opened ControlPlaneModel
  import opened ControlPlane
  import opened DeliveryNetworkModel
  import opened DeliveryNetworkProofs
  import opened TransportModel

  class VirtualClock {
    var currentMs: Time

    constructor (initial: Time)
      ensures currentMs == initial
    {
      currentMs := initial;
    }

    method Advance(milliseconds: int) returns (advanced: bool)
      modifies this
      ensures advanced <==> milliseconds >= 0
      ensures currentMs == old(currentMs) + if advanced then milliseconds else 0
    {
      advanced := milliseconds >= 0;
      if advanced { currentMs := currentMs + milliseconds; }
    }
  }

  function ToSet(ids: seq<nat>): set<nat> { set id | id in ids }

  lemma {:induction false} SetOfDistinct(ids: seq<nat>)
    ensures |ToSet(ids)| <= |ids|
    ensures |ToSet(ids)| == |ids| <==> Distinct(ids)
  {
    if ids != [] {
      var before, id := ids[..|ids| - 1], ids[|ids| - 1];
      SetOfDistinct(before);
      assert ids == before + [id];
      assert ToSet(ids) == ToSet(before) + {id};
      assert Distinct(ids) <==> Distinct(before) && id !in before by {
        forall i | 0 <= i < |before| ensures ids[i] == before[i] {}
      }
    }
  }

  lemma RemovingOneKeepsIndex(queue: seq<Frame>, index: nat)
    requires index < |queue|
    ensures var rest := queue[..index] + queue[index + 1..];
            && Pairs(queue) - Released([queue[index]], rest) == Pairs(rest)
            && rest[..index] == queue[..index] && rest[index..] == queue[index + 1..]
            && forall f :: f in rest ==> f in queue
  {
    var rest := queue[..index] + queue[index + 1..];
    assert forall f :: f in queue <==> f in [queue[index]] || f in rest;
    ReleasingKeepsIndex(queue, [queue[index]], rest);
  }

  /** Everything the poll relies on: every queued frame is for a recorded envelope. */
  ghost predicate AllHaveEnvelopes(p: Plane, queue: seq<Frame>) {
    forall f :: f in queue ==> HasEnvelope(p, f)
  }

  lemma EachHasEnvelope(p: Plane, queue: seq<Frame>, i: nat)
    requires AllHaveEnvelopes(p, queue) && i < |queue|
    ensures HasEnvelope(p, queue[i])
  {
    assert queue[i] in queue;
  }

  /** Every reachable state is ready to be polled. */
  lemma ReachableIsPollable(c: Config, sys: System)
    requires SystemOk(c, sys)
    ensures sys.net.scheduled == Pairs(sys.net.queue) && AllHaveEnvelopes(sys.plane, sys.net.queue)
  {
    forall f | f in sys.net.queue ensures HasEnvelope(sys.plane, f) { assert FrameOk(c, sys.plane, f); }
  }

  lemma DeliverAllOneMore(c: Config, plane: Plane, due: seq<Frame>, frame: Frame, now: Time)
    requires forall f :: f in due ==> HasEnvelope(plane, f)
    requires HasEnvelope(plane, frame)
    ensures var (before, results) := DeliverAll(c, plane, due, now);
            var (q, outcome) := RecordDeliveryIn(c, before, frame.bindingId, frame.sequence, now);
            DeliverAll(c, plane, due + [frame], now) ==
              (q, results + [Delivery(frame, EnvelopesIn(plane, frame.bindingId)[frame.sequence - 1], outcome)])
  {
    assert (due + [frame])[..|due|] == due;
  }

  /** How far a pass has come: frames taken so far, frames passed over, frames ahead. */
  ghost predicate PassedTo(all: Taken, due: seq<Frame>, removed: seq<Frame>, kept: seq<Frame>, ahead: seq<Frame>, b: string, limit: int, after: int, now: Time) {
    limit >= 0 &&
    var t := TakeDue(ahead, b, limit, after, now);
    all.due == due + t.due && all.removed == removed + t.removed && all.rest == kept + t.rest
  }

  lemma PassOne(all: Taken, due: seq<Frame>, removed: seq<Frame>, kept: seq<Frame>, ahead: seq<Frame>, b: string, limit: int, after: int, now: Time)
    requires PassedTo(all, due, removed, kept, ahead, b, limit, after, now) && ahead != [] && limit > 0
    ensures var f := ahead[0];
            if Stale(f, b, after) then PassedTo(all, due, removed + [f], kept, ahead[1..], b, limit, after, now)
            else if Due(f, b, after, now) then PassedTo(all, due + [f], removed + [f], kept, ahead[1..], b, limit - 1, after, now)
            else PassedTo(all, due, removed, kept + [f], ahead[1..], b, limit, after, now)
  {
    var f := ahead[0];
    var t := TakeDue(ahead[1..], b, if !Stale(f, b, after) && Due(f, b, after, now) then limit - 1 else limit, after, now);
    assert removed + ([f] + t.removed) == removed + [f] + t.removed;
    assert due + ([f] + t.due) == due + [f] + t.due;
    assert kept + ([f] + t.rest) == kept + [f] + t.rest;
  }

  /** One frame of the pass, by its place in the queue. */
  lemma PassAt(all: Taken, due: seq<Frame>, removed: seq<Frame>, queue: seq<Frame>, i: nat, b: string, limit: int, after: int, now: Time)
    requires i < |queue| && PassedTo(all, due, removed, queue[..i], queue[i..], b, limit, after, now) && limit > 0
    ensures var f := queue[i];
            if Stale(f, b, after) then PassedTo(all, due, removed + [f], queue[..i], queue[i + 1..], b, limit, after, now)
            else if Due(f, b, after, now) then PassedTo(all, due + [f], removed + [f], queue[..i], queue[i + 1..], b, limit - 1, after, now)
            else PassedTo(all, due, removed, queue[..i + 1], queue[i + 1..], b, limit, after, now)
  {
    hide PassedTo;
    PassOne(all, due, removed, queue[..i], queue[i..], b, limit, after, now);
    assert queue[i..][0] == queue[i] && queue[i..][1..] == queue[i + 1..];
    assert queue[..i + 1] == queue[..i] + [queue[i]];
  }

  lemma PassStarts(queue: seq<Frame>, b: string, limit: nat, after: int, now: Time)
    ensures PassedTo(TakeDue(queue, b, limit, after, now), [], [], queue[..0], queue[0..], b, limit, after, now)
  {
    assert queue[0..] == queue && queue[..0] == [];
  }

  lemma PassEnds(all: Taken, due: seq<Frame>, removed: seq<Frame>, kept: seq<Frame>, ahead: seq<Frame>, b: string, limit: int, after: int, now: Time)
    requires PassedTo(all, due, removed, kept, ahead, b, limit, after, now) && (ahead == [] || limit == 0)
    ensures all == Taken(due, removed, kept + ahead)
  {
    assert due + [] == due && removed + [] == removed;
  }

  lemma NothingEnqueued(c: Config, net: Network, bindingId: string, after: int)
    ensures EnqueueAll(c, net, bindingId, [], after) == net
  {
  }

  lemma EnqueueOneMore(c: Config, net: Network, bindingId: string, envelopes: seq<Envelope>, k: nat, after: int)
    requires k < |envelopes|
    ensures EnqueueAll(c, net, bindingId, envelopes[..k + 1], after)
            == EnqueueOne(c, EnqueueAll(c, net, bindingId, envelopes[..k], after), bindingId, envelopes[k], after)
  {
    hide EnqueueOne;
    assert envelopes[..k + 1][..k] == envelopes[..k];
  }

  lemma Joined(a: seq<Frame>, b: seq<Frame>, c: seq<Frame>)
    ensures (a + b) + c == a + (b + c)
  {
  }

  lemma NothingDelivered(c: Config, plane: Plane, now: Time)
    ensures DeliverAll(c, plane, [], now) == (plane, [])
  {
  }

  class DeterministicControlPlaneSimulator {
    const authority: ReferenceControlPlane
    const clock: VirtualClock
    var queue: seq<Frame>
    var scheduled: set<(string, nat)>
    var partitions: set<string>
    var revocationEpochs: map<string, nat>
    var revoked: set<string>
    var nextFrame: nat

    ghost function NetView(): Network
      reads this, clock
    {
      Network(queue, scheduled, partitions, revocationEpochs, revoked, nextFrame, clock.currentMs)
    }

    ghost function View(): System
      reads this, clock, authority, authority.bindingsById.Values
    {
      System(authority.View(), NetView())
    }

    constructor (authority: ReferenceControlPlane, clock: VirtualClock)
      ensures this.authority == authority && this.clock == clock
      ensures NetView() == Start(clock.currentMs).net
    {
      this.authority := authority;
      this.clock := clock;
      queue := [];
      scheduled := {};
      partitions := {};
      revocationEpochs := map[];
      revoked := {};
      nextFrame := 0;
    }

    method Enqueue(bindingId: string, after: int) returns (added: seq<Frame>)
      modifies this
      ensures NetView() == EnqueueIn(authority.config, old(View()), bindingId, after).0.net
      ensures added == EnqueueIn(authority.config, old(View()), bindingId, after).1
    {
      hide EnqueueAll, EnqueueOne, ReferenceControlPlane.View;
      if bindingId in revoked { return []; }
      added := [];
      var envelopes := authority.Envelopes(bindingId);
      ghost var c, before := authority.config, NetView();
      NothingEnqueued(c, before, bindingId, after);
      for k := 0 to |envelopes|
        invariant NetView() == EnqueueAll(c, before, bindingId, envelopes[..k], after)
        invariant queue == before.queue + added
      {
        EnqueueOneMore(c, before, bindingId, envelopes, k, after);
        var queued := EnqueueEnvelope(bindingId, envelopes[k], after);
        Joined(before.queue, added, queued);
        added := added + queued;
      }
      assert envelopes[..|envelopes|] == envelopes;
    }

    /** A frame for one envelope past the cursor, unless one is scheduled. */
    method EnqueueEnvelope(bindingId: string, envelope: Envelope, after: int) returns (added: seq<Frame>)
      modifies this`queue, this`scheduled, this`nextFrame
      ensures NetView() == EnqueueOne(authority.config, old(NetView()), bindingId, envelope, after)
      ensures queue == old(queue) + added
    {
      if envelope.Sequence() <= after { return []; }
      if (bindingId, envelope.Sequence()) in scheduled { return []; }
      scheduled := scheduled + {(bindingId, envelope.Sequence())};
      var frame := Frame(nextFrame, bindingId, envelope.Sequence(), clock.currentMs, authority.config.digest(EnvelopeText(envelope)));
      nextFrame := nextFrame + 1;
      queue := queue + [frame];
      return [frame];
    }

    method Duplicate(frameId: nat) returns (outcome: NetOutcome)
      modifies this
      ensures (NetView(), outcome) == RearrangeIn(old(NetView()), NetOp.Duplicate(frameId))
    {
      var index := IndexOf(queue, frameId);
      if index == |queue| { return NetThrew; }
      var duplicate := queue[index].(frameId := nextFrame);
      nextFrame := nextFrame + 1;
      queue := queue[..index + 1] + [duplicate] + queue[index + 1..];
      return Frames([duplicate]);
    }

    method Delay(frameId: nat, milliseconds: int) returns (outcome: NetOutcome)
      modifies this
      ensures (NetView(), outcome) == RearrangeIn(old(NetView()), NetOp.Delay(frameId, milliseconds))
    {
      if milliseconds < 0 { return NetThrew; }
      var index := IndexOf(queue, frameId);
      if index == |queue| { return NetThrew; }
      var frame := queue[index].(availableAt := queue[index].availableAt + milliseconds);
      queue := queue[index := frame];
      return Frames([frame]);
    }

    method Reorder(frameIds: seq<nat>) returns (outcome: NetOutcome)
      modifies this
      ensures (NetView(), outcome) == RearrangeIn(old(NetView()), NetOp.Reorder(frameIds))
    {
      SetOfDistinct(frameIds);
      if |frameIds| != |queue| || |ToSet(frameIds)| != |frameIds| { return NetThrew; }
      var reordered: seq<Frame> := [];
      for k := 0 to |frameIds|
        invariant |reordered| == k
        invariant forall j :: 0 <= j < k ==> IndexOf(queue, frameIds[j]) < |queue| && reordered[j] == queue[IndexOf(queue, frameIds[j])]
      {
        var index := IndexOf(queue, frameIds[k]);
        if index == |queue| {
          assert frameIds[k] in frameIds;
          return NetThrew;
        }
        reordered := reordered + [queue[index]];
      }
      assert reordered == Reordered(queue, frameIds);
      queue := reordered;
      return NetDone;
    }

    /** Forgets a pair once no queued frame carries it. */
    method ReleaseCanonicalFrame(frame: Frame)
      modifies this`scheduled
      ensures scheduled == old(scheduled) - Released([frame], queue)
    {
      assert Pairs([frame]) == {Pair(frame)} by { assert frame in [frame]; }
      var remaining := exists candidate :: candidate in queue && candidate.bindingId == frame.bindingId && candidate.sequence == frame.sequence;
      if !remaining {
        scheduled := scheduled - {(frame.bindingId, frame.sequence)};
      }
      assert remaining <==> Pair(frame) in Pairs(queue);
    }

    method Drop(frameId: nat) returns (outcome: NetOutcome)
      modifies this
      ensures (NetView(), outcome) == RearrangeIn(old(NetView()), NetOp.Drop(frameId))
    {
      var index := IndexOf(queue, frameId);
      if index == |queue| { return NetThrew; }
      var frame := queue[index];
      queue := queue[..index] + queue[index + 1..];
      ReleaseCanonicalFrame(frame);
      return NetDone;
    }

    method RegisterBinding(bindingId: string, revocationEpoch: int) returns (outcome: NetOutcome)
      modifies this
      ensures (NetView(), outcome) == RegisterEpochIn(old(NetView()), bindingId, revocationEpoch)
    {
      if revocationEpoch < 0 { return NetThrew; }
      if bindingId in revocationEpochs && revocationEpochs[bindingId] != revocationEpoch { return NetThrew; }
      revocationEpochs := revocationEpochs[bindingId := revocationEpoch];
      return NetDone;
    }

    method Partition(bindingId: string)
      modifies this`partitions
      ensures NetView() == SystemStep(authority.config, old(View()), NetOp.Partition(bindingId)).0.net
    {
      partitions := partitions + {bindingId};
    }

    method Reconnect(bindingId: string)
      modifies this`partitions
      ensures NetView() == SystemStep(authority.config, old(View()), NetOp.Reconnect(bindingId)).0.net
    {
      partitions := partitions - {bindingId};
    }

    method Revoke(bindingId: string) returns (outcome: NetOutcome)
      requires authority.Valid()
      modifies this, authority.bindingsById.Values
      ensures authority.Valid() && unchanged(authority)
      ensures authority.View() == RevokeBindingIn(old(View()), bindingId).0.plane
      ensures NetView() == RevokeBindingIn(old(View()), bindingId).0.net
      ensures outcome == RevokeBindingIn(old(View()), bindingId).1
    {
      hide Put, RevokeIn, ReferenceControlPlane.Valid, ReferenceControlPlane.View;
      RevokesRegistered(authority.View(), bindingId);
      if bindingId !in revocationEpochs { return NetThrew; }
      var current := revocationEpochs[bindingId];
      var done := authority.Revoke(bindingId);
      if done.Threw? { return NetThrew; }
      revocationEpochs := revocationEpochs[bindingId := current + 1];
      revoked := revoked + {bindingId};
      return NetDone;
    }

    /** Takes one frame out of the queue; its pair stays scheduled while others carry it. */
    method RemoveAt(index: nat)
      requires index < |queue| && scheduled == Pairs(queue)
      modifies this`queue, this`scheduled
      ensures |queue| == old(|queue|) - 1
      ensures queue[..index] == old(queue[..index]) && queue[index..] == old(queue[index + 1..])
      ensures scheduled == Pairs(queue)
      ensures forall plane :: AllHaveEnvelopes(plane, old(queue)) ==> AllHaveEnvelopes(plane, queue)
    {
      RemovingOneKeepsIndex(queue, index);
      var frame := queue[index];
      queue := queue[..index] + queue[index + 1..];
      ReleaseCanonicalFrame(frame);
    }

    /** Records the delivery of one more frame after those of `due`. */
    method DeliverOne(frame: Frame, ghost plane: Plane, ghost due: seq<Frame>, ghost results: seq<Delivery>) returns (delivery: Delivery)
      requires authority.Valid() && HasEnvelope(plane, frame) && IndexesOk(plane)
      requires forall f :: f in due ==> HasEnvelope(plane, f)
      requires (authority.View(), results) == DeliverAll(authority.config, plane, due, clock.currentMs)
      modifies authority.bindingsById.Values
      ensures authority.Valid() && unchanged(authority)
      ensures (authority.View(), results + [delivery]) == DeliverAll(authority.config, plane, due + [frame], clock.currentMs)
    {
      hide DeliverAll, IndexesOk, ReferenceControlPlane.Valid, ReferenceControlPlane.View;
      DeliverAllKeepsLogs(authority.config, plane, due, clock.currentMs, frame.bindingId);
      var envelopes := authority.Envelopes(frame.bindingId);
      DeliverAllOneMore(authority.config, plane, due, frame, clock.currentMs);
      var result := authority.RecordDelivery(frame.bindingId, frame.sequence, clock.currentMs);
      return Delivery(frame, envelopes[frame.sequence - 1], result);
    }

    /** The pass over the shrinking queue. */
    method DeliverDue(bindingId: string, limit: nat, after: int) returns (results: seq<Delivery>)
      requires authority.Valid() && scheduled == Pairs(queue) && AllHaveEnvelopes(authority.View(), queue)
      modifies this`queue, this`scheduled, authority.bindingsById.Values
      ensures authority.Valid() && unchanged(authority)
      ensures var t := TakeDue(old(queue), bindingId, limit, after, clock.currentMs);
              && queue == t.rest && scheduled == Pairs(t.rest)
              && (forall f :: f in t.due ==> HasEnvelope(old(authority.View()), f))
              && (authority.View(), results) == DeliverAll(authority.config, old(authority.View()), t.due, clock.currentMs)
    {
      hide TakeDue, PassedTo, DeliverAll, HasEnvelope, AllHaveEnvelopes, EnvelopesIn, Pairs, IndexesOk, StateOfKey, ReferenceControlPlane.Valid, ReferenceControlPlane.View;
      ghost var c, plane, all := authority.config, authority.View(), TakeDue(queue, bindingId, limit, after, clock.currentMs);
      PassStarts(queue, bindingId, limit, after, clock.currentMs);
      NothingDelivered(c, plane, clock.currentMs);
      assert IndexesOk(plane) by { authority.IndexesAgree(); }
      ghost var due, removed: seq<Frame> := [], [];
      results := [];
      var index := 0;
      while index < |queue| && |results| < limit
        invariant index <= |queue| && |due| == |results| <= limit
        invariant authority.Valid() && unchanged(authority)
        invariant scheduled == Pairs(queue)
        invariant AllHaveEnvelopes(plane, queue)
        invariant forall f :: f in due ==> HasEnvelope(plane, f)
        invariant PassedTo(all, due, removed, queue[..index], queue[index..], bindingId, limit - |due|, after, clock.currentMs)
        invariant (authority.View(), results) == DeliverAll(c, plane, due, clock.currentMs)
        decreases |queue| - index
      {
        var frame := queue[index];
        EachHasEnvelope(plane, queue, index);
        PassAt(all, due, removed, queue, index, bindingId, limit - |due|, after, clock.currentMs);
        if Stale(frame, bindingId, after) {
          RemoveAt(index);
          removed := removed + [frame];
          continue;
        }
        if frame.bindingId != bindingId || frame.availableAt > clock.currentMs {
          index := index + 1;
          continue;
        }
        RemoveAt(index);
        var delivery := DeliverOne(frame, plane, due, results);
        results := results + [delivery];
        removed, due := removed + [frame], due + [frame];
      }
      PassEnds(all, due, removed, queue[..index], queue[index..], bindingId, limit - |due|, after, clock.currentMs);
      assert queue[..index] + queue[index..] == queue;
    }

    method Poll(bindingId: string, limit: int, after: int) returns (outcome: NetOutcome)
      requires authority.Valid() && scheduled == Pairs(queue) && AllHaveEnvelopes(authority.View(), queue)
      modifies this, authority.bindingsById.Values
      ensures authority.Valid() && unchanged(authority)
      ensures (View(), outcome) == PollIn(authority.config, old(View()), bindingId, limit, after)
    {
      if !(1 <= limit <= 256) { return NetThrew; }
      if bindingId in partitions { return Deliveries([]); }
      ghost var before := NetView();
      TakeDueSplits(queue, bindingId, limit, after, clock.currentMs);
      ghost var t := TakeDue(queue, bindingId, limit, after, clock.currentMs);
      ReleasingKeepsIndex(queue, t.removed, t.rest);
      var results := DeliverDue(bindingId, limit, after);
      assert NetView() == before.(queue := t.rest, scheduled := before.scheduled - Released(t.removed, t.rest));
      return Deliveries(results);
    }
  }

  lemma RevokesRegistered(p: Plane, bindingId: string)
    ensures RevokeIn(p, bindingId).1 == (if bindingId in p.byId then Done else Threw)
    ensures bindingId !in p.byId ==> RevokeIn(p, bindingId).0 == p
  {
    hide Put;
  }
}
