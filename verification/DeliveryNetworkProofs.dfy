/** What the network may and may not do to deliveries, over every interleaving of
    its operations with those of the control plane. */
module DeliveryNetworkProofs {
  import opened ControlPlaneModel
  import opened ControlPlaneProofs
  import opened DeliveryNetworkModel

  // ----- taking frames out is filtering

  /** The frames of a queue that are due, in queue order. */
  function DueFrames(queue: seq<Frame>, b: string, after: int, now: Time): seq<Frame> {
    if queue == [] then []
    else (if Due(queue[0], b, after, now) then [queue[0]] else []) + DueFrames(queue[1..], b, after, now)
  }

  /** The frames of a queue that are neither due nor stale, in queue order. */
  function UntouchedFrames(queue: seq<Frame>, b: string, after: int, now: Time): seq<Frame> {
    if queue == [] then []
    else (if Due(queue[0], b, after, now) || Stale(queue[0], b, after) then [] else [queue[0]]) + UntouchedFrames(queue[1..], b, after, now)
  }

  /** The frames of a queue that are due or stale, in queue order. */
  function TouchedFrames(queue: seq<Frame>, b: string, after: int, now: Time): seq<Frame> {
    if queue == [] then []
    else (if Due(queue[0], b, after, now) || Stale(queue[0], b, after) then [queue[0]] else []) + TouchedFrames(queue[1..], b, after, now)
  }

  function First(s: seq<Frame>, limit: nat): seq<Frame> {
    if |s| <= limit then s else s[..limit]
  }

  lemma {:induction false} TakesTheFirstDue(queue: seq<Frame>, b: string, limit: nat, after: int, now: Time)
    ensures TakeDue(queue, b, limit, after, now).due == First(DueFrames(queue, b, after, now), limit)
  {
    if queue != [] && limit > 0 {
      var f := queue[0];
      var due := !Stale(f, b, after) && Due(f, b, after, now);
      TakesTheFirstDue(queue[1..], b, if due then limit - 1 else limit, after, now);
      var rest := DueFrames(queue[1..], b, after, now);
      if due && |rest| > limit - 1 {
        assert ([f] + rest)[..limit] == [f] + rest[..limit - 1];
      }
    }
  }

  lemma {:induction false} TakeDueExamines(queue: seq<Frame>, b: string, limit: nat, after: int, now: Time)
    returns (examined: seq<Frame>, left: seq<Frame>)
    ensures queue == examined + left
    ensures var t := TakeDue(queue, b, limit, after, now);
            && t.removed == TouchedFrames(examined, b, after, now)
            && t.rest == UntouchedFrames(examined, b, after, now) + left
            && (|t.due| < limit ==> left == [])
  {
    if queue == [] || limit == 0 {
      examined, left := [], queue;
    } else {
      var f := queue[0];
      var e, l := TakeDueExamines(queue[1..], b, if !Stale(f, b, after) && Due(f, b, after, now) then limit - 1 else limit, after, now);
      examined, left := [f] + e, l;
      assert examined[0] == f && examined[1..] == e;
      assert queue == [f] + queue[1..];
    }
  }

  /** A pass delivers the first `limit` due frames. It examines a front part of the
      queue: there every due or stale frame is taken out and the others stay in
      order; what it has left is untouched, and nothing is left while fewer than
      `limit` frames were due. */
  lemma TakeDueIsFilter(queue: seq<Frame>, b: string, limit: nat, after: int, now: Time)
    returns (examined: seq<Frame>, left: seq<Frame>)
    ensures queue == examined + left
    ensures var t := TakeDue(queue, b, limit, after, now);
            && t.due == First(DueFrames(queue, b, after, now), limit)
            && t.removed == TouchedFrames(examined, b, after, now)
            && t.rest == UntouchedFrames(examined, b, after, now) + left
            && (|t.due| < limit ==> left == [])
  {
    hide TakeDue, DueFrames, TouchedFrames, UntouchedFrames;
    TakesTheFirstDue(queue, b, limit, after, now);
    examined, left := TakeDueExamines(queue, b, limit, after, now);
  }

  ghost predicate DistinctFrames(queue: seq<Frame>) {
    forall i, j {:trigger queue[i].frameId, queue[j].frameId} :: 0 <= i < j < |queue| ==> queue[i].frameId != queue[j].frameId
  }

  lemma {:induction false} TakeDueSplits(queue: seq<Frame>, b: string, limit: nat, after: int, now: Time)
    ensures var t := TakeDue(queue, b, limit, after, now);
            && (forall f :: f in queue <==> f in t.removed || f in t.rest)
            && (forall f :: f in t.due ==> f in queue && Due(f, b, after, now))
            && (DistinctFrames(queue) ==> DistinctFrames(t.rest))
  {
    if queue != [] && limit > 0 {
      var f := queue[0];
      var smaller := if !Stale(f, b, after) && Due(f, b, after, now) then limit - 1 else limit;
      TakeDueSplits(queue[1..], b, smaller, after, now);
      var t := TakeDue(queue[1..], b, smaller, after, now);
      assert queue == [f] + queue[1..];
      if DistinctFrames(queue) {
        assert DistinctFrames(queue[1..]);
        forall g | g in t.rest ensures g.frameId != f.frameId {
          var k :| 0 <= k < |queue[1..]| && queue[1..][k] == g;
          assert queue[k + 1] == g;
        }
        assert DistinctFrames([f] + t.rest);
      }
    }
  }

  lemma ReleasingKeepsIndex(queue: seq<Frame>, removed: seq<Frame>, rest: seq<Frame>)
    requires forall f :: f in queue <==> f in removed || f in rest
    ensures Pairs(queue) - Released(removed, rest) == Pairs(rest)
  {
    forall pair | pair in Pairs(queue) && pair !in Pairs(rest)
      ensures pair in Pairs(removed)
    {
      var f :| f in queue && Pair(f) == pair;
      assert f in removed;
    }
    forall f | f in rest ensures Pair(f) in Pairs(queue) { assert f in queue; }
  }

  lemma QueueOkAfterRemoval(c: Config, p: Plane, queue: seq<Frame>, rest: seq<Frame>, nextFrame: nat)
    requires QueueOk(c, p, queue, nextFrame)
    requires forall f :: f in rest ==> f in queue
    requires DistinctFrames(rest)
    ensures QueueOk(c, p, rest, nextFrame)
  {
    forall i | 0 <= i < |rest| ensures rest[i].frameId < nextFrame {
      assert rest[i] in rest;
      var k :| 0 <= k < |queue| && queue[k] == rest[i];
      assert queue[k].frameId < nextFrame;
    }
    forall f | f in rest ensures FrameOk(c, p, f) { assert f in queue; }
  }

  // ----- the queue while the control plane moves on

  lemma FrameStaysOk(c: Config, p: Plane, q: Plane, f: Frame)
    requires FrameOk(c, p, f) && PlaneGrows(p, q)
    ensures FrameOk(c, q, f)
  {
    assert GrowsAt(p, q, f.bindingId);
    assert p.byId[f.bindingId].envelopes[f.sequence - 1] == q.byId[f.bindingId].envelopes[f.sequence - 1];
  }

  lemma QueueStaysOk(c: Config, p: Plane, q: Plane, net: Network)
    requires QueueOk(c, p, net.queue, net.nextFrame) && RevokedInPlane(p, net.revoked) && PlaneGrows(p, q)
    ensures QueueOk(c, q, net.queue, net.nextFrame) && RevokedInPlane(q, net.revoked)
  {
    forall f | f in net.queue ensures FrameOk(c, q, f) {
      assert FrameOk(c, p, f);
      FrameStaysOk(c, p, q, f);
    }
    forall b | b in net.revoked ensures b in q.byId && q.byId[b].revoked {
      assert GrowsAt(p, q, b);
    }
  }

  /** Recording a list of deliveries is a run of the control plane. */
  lemma {:induction false} DeliverAllRuns(c: Config, p: Plane, due: seq<Frame>, now: Time)
    requires PlaneOk(c, p)
    requires forall f :: f in due ==> HasEnvelope(p, f)
    ensures var q := DeliverAll(c, p, due, now).0; PlaneOk(c, q) && PlaneGrows(p, q)
  {
    if due == [] {
      PlaneGrowsReflexive(p);
    } else {
      var last := |due| - 1;
      DeliverAllRuns(c, p, due[..last], now);
      var before := DeliverAll(c, p, due[..last], now).0;
      DeliveryStepKeepsOk(c, before, due[last].bindingId, due[last].sequence, now);
      PlaneGrowsTransitive(p, before, RecordDeliveryIn(c, before, due[last].bindingId, due[last].sequence, now).0);
    }
  }

  // ----- enqueueing

  lemma EnqueueOneKeepsOk(c: Config, p: Plane, net: Network, bindingId: string, e: Envelope, after: int)
    requires net.scheduled == Pairs(net.queue) && QueueOk(c, p, net.queue, net.nextFrame)
    requires 1 <= e.Sequence() <= |EnvelopesIn(p, bindingId)| && EnvelopesIn(p, bindingId)[e.Sequence() - 1] == e
    ensures var t := EnqueueOne(c, net, bindingId, e, after);
            t.scheduled == Pairs(t.queue) && QueueOk(c, p, t.queue, t.nextFrame)
  {
    var t := EnqueueOne(c, net, bindingId, e, after);
    if t != net {
      var f := FrameFor(c, net, bindingId, e);
      assert Pairs(net.queue + [f]) == Pairs(net.queue) + {Pair(f)} by {
        forall g | g in net.queue ensures Pair(g) in Pairs(net.queue + [f]) { assert g in net.queue + [f]; }
        assert f in net.queue + [f];
      }
      forall g | g in t.queue ensures FrameOk(c, p, g) {
        assert g in net.queue ==> FrameOk(c, p, g);
      }
    }
  }

  /** Every sequence of the first `n` past the cursor is scheduled. */
  ghost predicate Covered(scheduled: set<(string, nat)>, bindingId: string, n: nat, after: int) {
    forall s: nat {:trigger (bindingId, s) in scheduled} :: 1 <= s <= n && s > after ==> (bindingId, s) in scheduled
  }

  /** A frame made by enqueueing at `now` past the cursor, for a pair that had none. */
  ghost predicate NewlyQueued(f: Frame, net: Network, bindingId: string, n: nat, after: int) {
    f.bindingId == bindingId && after < f.sequence <= n && f.availableAt == net.now && Pair(f) !in net.scheduled
  }

  ghost predicate Numbered(envelopes: seq<Envelope>) {
    forall i {:trigger envelopes[i]} :: 0 <= i < |envelopes| ==> envelopes[i].Sequence() == i + 1
  }

  lemma EnqueueOneEffect(c: Config, net: Network, t: Network, bindingId: string, e: Envelope, after: int, n: nat)
    requires net.scheduled <= t.scheduled && net.queue <= t.queue && t.now == net.now
    requires e.Sequence() == n + 1
    requires Covered(t.scheduled, bindingId, n, after)
    requires forall k {:trigger t.queue[k]} :: |net.queue| <= k < |t.queue| ==> NewlyQueued(t.queue[k], net, bindingId, n, after)
    ensures var u := EnqueueOne(c, t, bindingId, e, after);
            && net.scheduled <= u.scheduled && net.queue <= u.queue && u.now == net.now
            && Covered(u.scheduled, bindingId, n + 1, after)
            && forall k {:trigger u.queue[k]} :: |net.queue| <= k < |u.queue| ==> NewlyQueued(u.queue[k], net, bindingId, n + 1, after)
  {
    var u := EnqueueOne(c, t, bindingId, e, after);
    forall k | |net.queue| <= k < |u.queue| ensures NewlyQueued(u.queue[k], net, bindingId, n + 1, after) {
      if k < |t.queue| { assert u.queue[k] == t.queue[k]; }
    }
  }

  /** After enqueueing, every listed envelope past the cursor has a queued frame,
      whatever happened to its earlier ones; frames already queued are kept and
      each new one is for a pair that had none. */
  lemma {:induction false} EnqueueAllCovers(c: Config, p: Plane, net: Network, bindingId: string, envelopes: seq<Envelope>, after: int)
    requires net.scheduled == Pairs(net.queue) && QueueOk(c, p, net.queue, net.nextFrame)
    requires envelopes <= EnvelopesIn(p, bindingId) && Numbered(envelopes)
    ensures var t := EnqueueAll(c, net, bindingId, envelopes, after);
            && t.scheduled == Pairs(t.queue) && QueueOk(c, p, t.queue, t.nextFrame)
            && net.scheduled <= t.scheduled && net.queue <= t.queue && t.now == net.now
            && Covered(t.scheduled, bindingId, |envelopes|, after)
            && forall k {:trigger t.queue[k]} :: |net.queue| <= k < |t.queue| ==> NewlyQueued(t.queue[k], net, bindingId, |envelopes|, after)
  {
    if envelopes != [] {
      var last := |envelopes| - 1;
      EnqueueAllCovers(c, p, net, bindingId, envelopes[..last], after);
      var before := EnqueueAll(c, net, bindingId, envelopes[..last], after);
      EnqueueOneKeepsOk(c, p, before, bindingId, envelopes[last], after);
      EnqueueOneEffect(c, net, before, bindingId, envelopes[last], after, last);
    }
  }

  lemma EnvelopesAreNumbered(c: Config, p: Plane, bindingId: string)
    requires PlaneOk(c, p)
    ensures Numbered(EnvelopesIn(p, bindingId))
  {
    if bindingId in p.byId {
      assert BindingOkAt(c, p, bindingId);
      forall i | 0 <= i < |p.byId[bindingId].envelopes| ensures p.byId[bindingId].envelopes[i].Sequence() == i + 1 {
        assert EnvelopeOk(c, p.byId[bindingId].binding, p.byId[bindingId].envelopes, i);
      }
    }
  }

  // ----- one step of the system

  lemma RearrangingKeepsOk(c: Config, p: Plane, net: Network, op: NetOp)
    requires op.Duplicate? || op.Delay? || op.Reorder? || op.Drop?
    requires net.scheduled == Pairs(net.queue) && QueueOk(c, p, net.queue, net.nextFrame)
    ensures var t := RearrangeIn(net, op).0;
            && t.scheduled == Pairs(t.queue) && QueueOk(c, p, t.queue, t.nextFrame)
            && t == net.(queue := t.queue, scheduled := t.scheduled, nextFrame := t.nextFrame)
  {
    match op
    case Duplicate(id) => DuplicateKeepsOk(c, p, net, id);
    case Delay(id, ms) => DelayKeepsOk(c, p, net, id, ms);
    case Reorder(ids) => if Reorderable(net.queue, ids) { ReorderKeepsOk(c, p, net, ids); }
    case Drop(id) => DropKeepsOk(c, p, net, id);
  }

  lemma DuplicateKeepsOk(c: Config, p: Plane, net: Network, id: nat)
    requires net.scheduled == Pairs(net.queue) && QueueOk(c, p, net.queue, net.nextFrame)
    ensures var t := RearrangeIn(net, Duplicate(id)).0;
            t.scheduled == Pairs(t.queue) && QueueOk(c, p, t.queue, t.nextFrame)
  {
    hide Pairs, FrameOk;
    var i := IndexOf(net.queue, id);
    if i < |net.queue| {
      var grown := DuplicateAt(net, i).queue;
      SamePairs(net.queue, grown, i);
      FreshIdStaysDistinct(net.queue, grown, i, net.nextFrame);
      assert net.queue[i] in net.queue && FrameOk(c, p, net.queue[i]);
      CopyIsOk(c, p, net.queue[i], grown[i + 1]);
      forall f | f in grown ensures FrameOk(c, p, f) {
        assert f in net.queue ==> FrameOk(c, p, f);
      }
    }
  }

  lemma CopyIsOk(c: Config, p: Plane, f: Frame, copy: Frame)
    requires FrameOk(c, p, f) && copy == f.(frameId := copy.frameId, availableAt := copy.availableAt)
    ensures FrameOk(c, p, copy)
  {
  }

  lemma FreshIdStaysDistinct(queue: seq<Frame>, grown: seq<Frame>, i: nat, nextFrame: nat)
    requires i < |queue| && |grown| == |queue| + 1 && DistinctFrames(queue)
    requires forall k {:trigger queue[k].frameId} :: 0 <= k < |queue| ==> queue[k].frameId < nextFrame
    requires grown == queue[..i + 1] + [grown[i + 1]] + queue[i + 1..] && grown[i + 1].frameId == nextFrame
    ensures DistinctFrames(grown)
    ensures forall k {:trigger grown[k].frameId} :: 0 <= k < |grown| ==> grown[k].frameId < nextFrame + 1
  {
    forall k | 0 <= k < |grown| ensures grown[k] == (if k <= i then queue[k] else if k == i + 1 then grown[i + 1] else queue[k - 1]) {}
  }

  lemma SamePairs(queue: seq<Frame>, grown: seq<Frame>, i: nat)
    requires i < |queue| && |grown| == |queue| + 1
    requires grown == queue[..i + 1] + [grown[i + 1]] + queue[i + 1..] && Pair(grown[i + 1]) == Pair(queue[i])
    ensures Pairs(grown) == Pairs(queue)
  {
    assert queue[i] in queue;
    forall f | f in queue ensures Pair(f) in Pairs(grown) { assert f in grown; }
    forall f | f in grown ensures Pair(f) in Pairs(queue) { assert f in queue || f == grown[i + 1]; }
  }

  lemma DelayKeepsOk(c: Config, p: Plane, net: Network, id: nat, ms: int)
    requires net.scheduled == Pairs(net.queue) && QueueOk(c, p, net.queue, net.nextFrame)
    ensures var t := RearrangeIn(net, Delay(id, ms)).0;
            t.scheduled == Pairs(t.queue) && QueueOk(c, p, t.queue, t.nextFrame)
  {
    var i := IndexOf(net.queue, id);
    if ms >= 0 && i < |net.queue| {
      var f := net.queue[i].(availableAt := net.queue[i].availableAt + ms);
      var t := net.queue[i := f];
      forall k | 0 <= k < |t| ensures Pair(t[k]) == Pair(net.queue[k]) && FrameOk(c, p, t[k]) && t[k].frameId == net.queue[k].frameId {
        assert net.queue[k] in net.queue && FrameOk(c, p, net.queue[k]);
      }
      PairwiseSame(t, net.queue);
    }
  }

  lemma PairwiseSame(a: seq<Frame>, b: seq<Frame>)
    requires |a| == |b| && forall k :: 0 <= k < |a| ==> Pair(a[k]) == Pair(b[k])
    ensures Pairs(a) == Pairs(b)
  {
    forall pair ensures pair in Pairs(a) <==> pair in Pairs(b) {
      if pair in Pairs(b) {
        var g :| g in b && Pair(g) == pair;
        var k :| 0 <= k < |b| && b[k] == g;
        assert a[k] in a;
      }
      if pair in Pairs(a) {
        var g :| g in a && Pair(g) == pair;
        var k :| 0 <= k < |a| && a[k] == g;
        assert b[k] in b;
      }
    }
  }

  lemma DropKeepsOk(c: Config, p: Plane, net: Network, id: nat)
    requires net.scheduled == Pairs(net.queue) && QueueOk(c, p, net.queue, net.nextFrame)
    ensures var t := RearrangeIn(net, Drop(id)).0;
            t.scheduled == Pairs(t.queue) && QueueOk(c, p, t.queue, t.nextFrame)
  {
    var i := IndexOf(net.queue, id);
    if i < |net.queue| {
      var rest := net.queue[..i] + net.queue[i + 1..];
      assert forall f :: f in net.queue <==> f in [net.queue[i]] || f in rest;
      ReleasingKeepsIndex(net.queue, [net.queue[i]], rest);
      QueueOkAfterRemoval(c, p, net.queue, rest, net.nextFrame);
    }
  }

  /** A reorder names every queued frame once, so it permutes the queue. */
  lemma ReorderIsPermutation(queue: seq<Frame>, ids: seq<nat>)
    requires DistinctFrames(queue) && Reorderable(queue, ids)
    ensures var t := Reordered(queue, ids);
            && multiset(t) == multiset(queue)
            && DistinctFrames(t)
            && forall k :: 0 <= k < |ids| ==> t[k].frameId == ids[k]
  {
    var t := Reordered(queue, ids);
    forall k | 0 <= k < |ids| ensures t[k] in queue && t[k].frameId == ids[k] { assert ids[k] in ids; }
    DistinctSameSize(t, queue);
  }

  lemma ReorderKeepsOk(c: Config, p: Plane, net: Network, ids: seq<nat>)
    requires net.scheduled == Pairs(net.queue) && QueueOk(c, p, net.queue, net.nextFrame)
    requires Reorderable(net.queue, ids)
    ensures var t := Reordered(net.queue, ids); net.scheduled == Pairs(t) && QueueOk(c, p, t, net.nextFrame)
  {
    var t := Reordered(net.queue, ids);
    ReorderIsPermutation(net.queue, ids);
    forall f ensures f in t <==> f in net.queue {
      assert f in t <==> f in multiset(t);
      assert f in net.queue <==> f in multiset(net.queue);
    }
    assert Pairs(t) == Pairs(net.queue);
    QueueOkAfterRemoval(c, p, net.queue, t, net.nextFrame);
  }

  /** Two duplicate-free lists of the same length, one within the other, hold the same frames. */
  lemma {:induction false} DistinctSameSize(t: seq<Frame>, queue: seq<Frame>)
    requires DistinctFrames(t) && DistinctFrames(queue) && |t| == |queue|
    requires forall f :: f in t ==> f in queue
    ensures multiset(t) == multiset(queue)
  {
    hide DistinctFrames;
    if t != [] {
      assert t[0] in queue;
      var k := PlaceOf(queue, t[0]);
      var others := queue[..k] + queue[k + 1..];
      OthersHoldTheRest(t, queue, k);
      DistinctSameSize(t[1..], others);
      HeadTakenOff(t);
      OneTakenOut(queue, k);
    }
  }

  lemma PlaceOf(queue: seq<Frame>, f: Frame) returns (k: nat)
    requires f in queue
    ensures k < |queue| && queue[k] == f
  {
    k :| 0 <= k < |queue| && queue[k] == f;
  }

  lemma HeadTakenOff(s: seq<Frame>)
    requires s != []
    ensures multiset(s) == multiset(s[1..]) + multiset{s[0]}
  {
    assert s == [s[0]] + s[1..];
  }

  lemma OneTakenOut(s: seq<Frame>, k: nat)
    requires k < |s|
    ensures multiset(s) == multiset(s[..k] + s[k + 1..]) + multiset{s[k]}
  {
    assert s == s[..k] + ([s[k]] + s[k + 1..]);
  }

  lemma OthersHoldTheRest(t: seq<Frame>, queue: seq<Frame>, k: nat)
    requires DistinctFrames(t) && DistinctFrames(queue) && t != [] && k < |queue| && queue[k] == t[0]
    requires forall f :: f in t ==> f in queue
    ensures var others := queue[..k] + queue[k + 1..];
            DistinctFrames(t[1..]) && DistinctFrames(others) && forall g :: g in t[1..] ==> g in others
  {
    var others := queue[..k] + queue[k + 1..];
    forall g | g in t[1..] ensures g in others {
      var i :| 0 <= i < |t[1..]| && t[1..][i] == g;
      assert t[i + 1] == g && g.frameId != t[0].frameId && g in queue;
      var j :| 0 <= j < |queue| && queue[j] == g;
      assert others[if j < k then j else j - 1] == g;
    }
  }

  lemma EnqueueKeepsOk(c: Config, sys: System, bindingId: string, after: int)
    requires SystemOk(c, sys)
    ensures SystemOk(c, EnqueueIn(c, sys, bindingId, after).0)
  {
    EnvelopesAreNumbered(c, sys.plane, bindingId);
    EnqueueAllAppends(c, sys.net, bindingId, EnvelopesIn(sys.plane, bindingId), after);
    EnqueueAllCovers(c, sys.plane, sys.net, bindingId, EnvelopesIn(sys.plane, bindingId), after);
  }

  /** In a system that keeps the invariant a poll never throws for want of an envelope. */
  lemma DueFramesHaveEnvelopes(c: Config, sys: System, bindingId: string, limit: nat, after: int)
    requires SystemOk(c, sys)
    ensures forall f :: f in TakeDue(sys.net.queue, bindingId, limit, after, sys.net.now).due ==> HasEnvelope(sys.plane, f)
  {
    var t := TakeDue(sys.net.queue, bindingId, limit, after, sys.net.now);
    TakeDueSplits(sys.net.queue, bindingId, limit, after, sys.net.now);
    forall f | f in t.due ensures HasEnvelope(sys.plane, f) {
      assert f in sys.net.queue && FrameOk(c, sys.plane, f);
    }
  }

  lemma PollKeepsOk(c: Config, sys: System, bindingId: string, limit: int, after: int)
    requires SystemOk(c, sys)
    ensures var (t, outcome) := PollIn(c, sys, bindingId, limit, after);
            && SystemOk(c, t) && PlaneGrows(sys.plane, t.plane)
            && (outcome.NetThrew? <==> !(1 <= limit <= 256))
  {
    PlaneGrowsReflexive(sys.plane);
    if 1 <= limit <= 256 && bindingId !in sys.net.partitions {
      DueFramesHaveEnvelopes(c, sys, bindingId, limit, after);
      var taken := TakeDue(sys.net.queue, bindingId, limit, after, sys.net.now);
      TakeDueSplits(sys.net.queue, bindingId, limit, after, sys.net.now);
      ReleasingKeepsIndex(sys.net.queue, taken.removed, taken.rest);
      QueueOkAfterRemoval(c, sys.plane, sys.net.queue, taken.rest, sys.net.nextFrame);
      DeliverAllRuns(c, sys.plane, taken.due, sys.net.now);
      var plane := DeliverAll(c, sys.plane, taken.due, sys.net.now).0;
      QueueStaysOk(c, sys.plane, plane, sys.net.(queue := taken.rest));
    }
  }

  lemma RevokeBindingKeepsOk(c: Config, sys: System, bindingId: string)
    requires SystemOk(c, sys)
    ensures var t := RevokeBindingIn(sys, bindingId).0; SystemOk(c, t) && PlaneGrows(sys.plane, t.plane)
  {
    RevokeKeepsOk(c, sys.plane, bindingId);
    PlaneGrowsReflexive(sys.plane);
    QueueStaysOk(c, sys.plane, RevokeIn(sys.plane, bindingId).0, sys.net);
  }

  /** Every operation of control plane or network keeps the joint invariant: the
      schedule index names exactly the pairs that are queued, and every queued frame
      is for a recorded envelope. What is recorded is only ever added to. */
  lemma SystemStepKeepsOk(c: Config, sys: System, op: NetOp)
    requires SystemOk(c, sys)
    ensures var t := SystemStep(c, sys, op).0; SystemOk(c, t) && PlaneGrows(sys.plane, t.plane)
  {
    hide PlaneOk, QueueOk, Pairs, RevokedInPlane, PlaneGrows, EnqueueAll, PollIn, RevokeBindingIn, RearrangeIn, Step;
    PlaneGrowsReflexive(sys.plane);
    match op
    case Central(op) =>
      StepKeepsOk(c, sys.plane, op);
      QueueStaysOk(c, sys.plane, Step(c, sys.plane, op).0, sys.net);
    case Enqueue(bindingId, after) => EnqueueKeepsOk(c, sys, bindingId, after);
    case Poll(bindingId, limit, after) => PollKeepsOk(c, sys, bindingId, limit, after);
    case RevokeBinding(bindingId) => RevokeBindingKeepsOk(c, sys, bindingId);
    case Partition(_) =>
    case Reconnect(_) =>
    case RegisterEpoch(_, _) =>
    case Expire(_) =>
    case _ => RearrangingKeepsOk(c, sys.plane, sys.net, op);
  }

  lemma {:induction false} RunSystemKeepsOk(c: Config, sys: System, ops: seq<NetOp>)
    requires SystemOk(c, sys)
    ensures var t := RunSystem(c, sys, ops); SystemOk(c, t) && PlaneGrows(sys.plane, t.plane)
    decreases |ops|
  {
    if ops == [] {
      PlaneGrowsReflexive(sys.plane);
    } else {
      SystemStepKeepsOk(c, sys, ops[0]);
      var next := SystemStep(c, sys, ops[0]).0;
      RunSystemKeepsOk(c, next, ops[1..]);
      PlaneGrowsTransitive(sys.plane, next.plane, RunSystem(c, next, ops[1..]).plane);
    }
  }

  lemma EveryReachableSystemIsOk(c: Config, now: Time, ops: seq<NetOp>)
    ensures SystemOk(c, RunSystem(c, Start(now), ops))
  {
    assert SystemOk(c, Start(now));
    RunSystemKeepsOk(c, Start(now), ops);
  }
}
