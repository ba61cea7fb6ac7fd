/** The network between the control plane and its connectors: a queue of delivery
    frames that may be duplicated, delayed, reordered, dropped or cut off, and the
    joint state of control plane and network. */
module DeliveryNetworkModel {
  import opened ControlPlaneModel

  /** Frame identities are the successive values of the counter they are minted from. */
  datatype Frame = Frame(frameId: nat, bindingId: string, sequence: nat, availableAt: Time, envelopeDigest: Digest)

  datatype Delivery = Delivery(frame: Frame, envelope: Envelope, result: DeliveryOutcome)

  /** `scheduled` is keyed by binding and sequence. */
  datatype Network = Network(
    queue: seq<Frame>, scheduled: set<(string, nat)>, partitions: set<string>,
    revocationEpochs: map<string, nat>, revoked: set<string>, nextFrame: nat, now: Time)

  datatype System = System(plane: Plane, net: Network)

  function Pair(f: Frame): (string, nat) { (f.bindingId, f.sequence) }

  function Pairs(queue: seq<Frame>): set<(string, nat)> {
    set f | f in queue :: Pair(f)
  }

  // ----- the queue

  function FrameFor(c: Config, net: Network, bindingId: string, e: Envelope): Frame {
    Frame(net.nextFrame, bindingId, e.Sequence(), net.now, c.digest(EnvelopeText(e)))
  }

  function EnqueueOne(c: Config, net: Network, bindingId: string, e: Envelope, after: int): Network {
    if e.Sequence() <= after || (bindingId, e.Sequence()) in net.scheduled then net
    else net.(queue := net.queue + [FrameFor(c, net, bindingId, e)],
              scheduled := net.scheduled + {(bindingId, e.Sequence())},
              nextFrame := net.nextFrame + 1)
  }

  function EnqueueAll(c: Config, net: Network, bindingId: string, envelopes: seq<Envelope>, after: int): Network {
    if envelopes == [] then net
    else
      var last := |envelopes| - 1;
      EnqueueOne(c, EnqueueAll(c, net, bindingId, envelopes[..last], after), bindingId, envelopes[last], after)
  }

  function EnvelopesIn(p: Plane, bindingId: string): seq<Envelope> {
    if bindingId in p.byId then p.byId[bindingId].envelopes else []
  }

  function IndexOf(queue: seq<Frame>, frameId: nat): (i: nat)
    ensures i <= |queue|
    ensures i < |queue| ==> queue[i].frameId == frameId
    ensures forall j :: 0 <= j < i ==> queue[j].frameId != frameId
  {
    if queue == [] || queue[0].frameId == frameId then 0 else 1 + IndexOf(queue[1..], frameId)
  }

  function DuplicateAt(net: Network, i: nat): Network
    requires i < |net.queue|
  {
    net.(queue := net.queue[..i + 1] + [net.queue[i].(frameId := net.nextFrame)] + net.queue[i + 1..],
         nextFrame := net.nextFrame + 1)
  }

  /** The pairs of removed frames that have no frame left. */
  function Released(removed: seq<Frame>, rest: seq<Frame>): set<(string, nat)> {
    Pairs(removed) - Pairs(rest)
  }

  function DropAt(net: Network, i: nat): Network
    requires i < |net.queue|
  {
    var rest := net.queue[..i] + net.queue[i + 1..];
    net.(queue := rest, scheduled := net.scheduled - Released([net.queue[i]], rest))
  }

  function Reordered(queue: seq<Frame>, frameIds: seq<nat>): (r: seq<Frame>)
    requires forall id :: id in frameIds ==> IndexOf(queue, id) < |queue|
    ensures |r| == |frameIds|
    ensures forall k :: 0 <= k < |r| ==> r[k] == queue[IndexOf(queue, frameIds[k])]
  {
    seq(|frameIds|, k requires 0 <= k < |frameIds| => assert frameIds[k] in frameIds; queue[IndexOf(queue, frameIds[k])])
  }

  predicate Distinct(ids: seq<nat>) {
    forall i, j :: 0 <= i < j < |ids| ==> ids[i] != ids[j]
  }

  predicate Reorderable(queue: seq<Frame>, frameIds: seq<nat>) {
    && |frameIds| == |queue|
    && Distinct(frameIds)
    && forall id :: id in frameIds ==> IndexOf(queue, id) < |queue|
  }

  // ----- taking frames out

  predicate Stale(f: Frame, bindingId: string, after: int) {
    f.bindingId == bindingId && f.sequence <= after
  }

  predicate Due(f: Frame, bindingId: string, after: int, now: Time) {
    f.bindingId == bindingId && f.sequence > after && f.availableAt <= now
  }

  datatype Taken = Taken(due: seq<Frame>, removed: seq<Frame>, rest: seq<Frame>)

  /** One pass over the queue: stale frames go, due frames go and are delivered, and
      the pass stops when `limit` frames have been taken. */
  function TakeDue(queue: seq<Frame>, bindingId: string, limit: nat, after: int, now: Time): Taken {
    if queue == [] || limit == 0 then Taken([], [], queue)
    else
      var f := queue[0];
      if Stale(f, bindingId, after) then
        var t := TakeDue(queue[1..], bindingId, limit, after, now);
        t.(removed := [f] + t.removed)
      else if Due(f, bindingId, after, now) then
        var t := TakeDue(queue[1..], bindingId, limit - 1, after, now);
        Taken([f] + t.due, [f] + t.removed, t.rest)
      else
        var t := TakeDue(queue[1..], bindingId, limit, after, now);
        t.(rest := [f] + t.rest)
  }

  predicate HasEnvelope(p: Plane, f: Frame) {
    1 <= f.sequence <= |EnvelopesIn(p, f.bindingId)|
  }

  /** Each frame in turn is recorded as delivered; the results are in queue order. */
  function DeliverAll(c: Config, p: Plane, due: seq<Frame>, now: Time): (Plane, seq<Delivery>)
    requires forall f :: f in due ==> HasEnvelope(p, f)
  {
    if due == [] then (p, [])
    else
      var last := |due| - 1;
      assert due[last] in due && HasEnvelope(p, due[last]);
      var (before, deliveries) := DeliverAll(c, p, due[..last], now);
      var (q, outcome) := RecordDeliveryIn(c, before, due[last].bindingId, due[last].sequence, now);
      (q, deliveries + [Delivery(due[last], EnvelopesIn(p, due[last].bindingId)[due[last].sequence - 1], outcome)])
  }

  // ----- operations

  datatype NetOp =
    | Central(op: Op)
    | Enqueue(enqueueBinding: string, enqueueAfter: int)
    | Duplicate(duplicatedFrame: nat)
    | Delay(delayedFrame: nat, delayMs: int)
    | Reorder(frameIds: seq<nat>)
    | Drop(droppedFrame: nat)
    | Partition(partitioned: string)
    | Reconnect(reconnected: string)
    | RegisterEpoch(epochBinding: string, epoch: int)
    | RevokeBinding(revokeBinding: string)
    | Expire(expireMs: int)
    | Poll(pollBinding: string, limit: int, pollAfter: int)

  datatype NetOutcome =
    | OfCentral(outcome: Outcome)
    | Frames(frames: seq<Frame>)
    | Deliveries(deliveries: seq<Delivery>)
    | NetDone
    | NetThrew

  function EnqueueIn(c: Config, sys: System, bindingId: string, after: int): (System, seq<Frame>) {
    if bindingId in sys.net.revoked then (sys, [])
    else
      var net := EnqueueAll(c, sys.net, bindingId, EnvelopesIn(sys.plane, bindingId), after);
      EnqueueAllAppends(c, sys.net, bindingId, EnvelopesIn(sys.plane, bindingId), after);
      (sys.(net := net), net.queue[|sys.net.queue|..])
  }

  lemma {:induction false} EnqueueAllAppends(c: Config, net: Network, bindingId: string, envelopes: seq<Envelope>, after: int)
    ensures net.queue <= EnqueueAll(c, net, bindingId, envelopes, after).queue
    ensures var t := EnqueueAll(c, net, bindingId, envelopes, after);
            t == net.(queue := t.queue, scheduled := t.scheduled, nextFrame := t.nextFrame)
  {
    if envelopes != [] {
      EnqueueAllAppends(c, net, bindingId, envelopes[..|envelopes| - 1], after);
    }
  }

  /** A frame whose envelope is missing makes the poll throw; no reachable state has one. */
  function PollIn(c: Config, sys: System, bindingId: string, limit: int, after: int): (System, NetOutcome) {
    if !(1 <= limit <= 256) then (sys, NetThrew)
    else if bindingId in sys.net.partitions then (sys, Deliveries([]))
    else
      var t := TakeDue(sys.net.queue, bindingId, limit, after, sys.net.now);
      if exists f :: f in t.due && !HasEnvelope(sys.plane, f) then (sys, NetThrew)
      else
        var (plane, deliveries) := DeliverAll(c, sys.plane, t.due, sys.net.now);
        (System(plane, sys.net.(queue := t.rest, scheduled := sys.net.scheduled - Released(t.removed, t.rest))),
         Deliveries(deliveries))
  }

  function RegisterEpochIn(net: Network, bindingId: string, epoch: int): (Network, NetOutcome) {
    if epoch < 0 || (bindingId in net.revocationEpochs && net.revocationEpochs[bindingId] != epoch) then (net, NetThrew)
    else (net.(revocationEpochs := net.revocationEpochs[bindingId := epoch]), NetDone)
  }

  function RevokeBindingIn(sys: System, bindingId: string): (System, NetOutcome) {
    if bindingId !in sys.net.revocationEpochs || bindingId !in sys.plane.byId then (sys, NetThrew)
    else
      (System(RevokeIn(sys.plane, bindingId).0,
              sys.net.(revocationEpochs := sys.net.revocationEpochs[bindingId := sys.net.revocationEpochs[bindingId] + 1],
                       revoked := sys.net.revoked + {bindingId})), NetDone)
  }

  /** The operations that only rearrange what is in flight. */
  function RearrangeIn(net: Network, op: NetOp): (Network, NetOutcome)
    requires op.Duplicate? || op.Delay? || op.Reorder? || op.Drop?
  {
    match op
    case Duplicate(id) =>
      var i := IndexOf(net.queue, id);
      if i == |net.queue| then (net, NetThrew)
      else var t := DuplicateAt(net, i); (t, Frames([t.queue[i + 1]]))
    case Delay(id, ms) =>
      var i := IndexOf(net.queue, id);
      if ms < 0 || i == |net.queue| then (net, NetThrew)
      else
        var f := net.queue[i].(availableAt := net.queue[i].availableAt + ms);
        (net.(queue := net.queue[i := f]), Frames([f]))
    case Reorder(ids) =>
      if !Reorderable(net.queue, ids) then (net, NetThrew)
      else (net.(queue := Reordered(net.queue, ids)), NetDone)
    case Drop(id) =>
      var i := IndexOf(net.queue, id);
      if i == |net.queue| then (net, NetThrew) else (DropAt(net, i), NetDone)
  }

  function SystemStep(c: Config, sys: System, op: NetOp): (System, NetOutcome) {
    match op
    case Central(op) => var (p, outcome) := Step(c, sys.plane, op); (sys.(plane := p), OfCentral(outcome))
    case Enqueue(bindingId, after) => var (s, frames) := EnqueueIn(c, sys, bindingId, after); (s, Frames(frames))
    case Partition(bindingId) => (sys.(net := sys.net.(partitions := sys.net.partitions + {bindingId})), NetDone)
    case Reconnect(bindingId) => (sys.(net := sys.net.(partitions := sys.net.partitions - {bindingId})), NetDone)
    case RegisterEpoch(bindingId, epoch) => var (net, outcome) := RegisterEpochIn(sys.net, bindingId, epoch); (sys.(net := net), outcome)
    case RevokeBinding(bindingId) => RevokeBindingIn(sys, bindingId)
    case Expire(ms) => if ms < 0 then (sys, NetThrew) else (sys.(net := sys.net.(now := sys.net.now + ms)), NetDone)
    case Poll(bindingId, limit, after) => PollIn(c, sys, bindingId, limit, after)
    case _ => var (net, outcome) := RearrangeIn(sys.net, op); (sys.(net := net), outcome)
  }

  function RunSystem(c: Config, sys: System, ops: seq<NetOp>): System
    decreases |ops|
  {
    if ops == [] then sys else RunSystem(c, SystemStep(c, sys, ops[0]).0, ops[1..])
  }

  function Start(now: Time): System {
    System(EMPTY, Network([], {}, {}, map[], {}, 0, now))
  }

  // ----- what every reachable state keeps

  ghost predicate FrameOk(c: Config, p: Plane, f: Frame) {
    HasEnvelope(p, f) && f.envelopeDigest == c.digest(EnvelopeText(EnvelopesIn(p, f.bindingId)[f.sequence - 1]))
  }

  ghost predicate QueueOk(c: Config, p: Plane, queue: seq<Frame>, nextFrame: nat) {
    && (forall i {:trigger queue[i].frameId} :: 0 <= i < |queue| ==> queue[i].frameId < nextFrame)
    && (forall i, j {:trigger queue[i].frameId, queue[j].frameId} :: 0 <= i < j < |queue| ==> queue[i].frameId != queue[j].frameId)
    && forall f {:trigger FrameOk(c, p, f)} :: f in queue ==> FrameOk(c, p, f)
  }

  ghost predicate RevokedInPlane(p: Plane, revoked: set<string>) {
    forall b :: b in revoked ==> b in p.byId && p.byId[b].revoked
  }

  ghost predicate SystemOk(c: Config, sys: System) {
    && PlaneOk(c, sys.plane)
    && sys.net.scheduled == Pairs(sys.net.queue)
    && QueueOk(c, sys.plane, sys.net.queue, sys.net.nextFrame)
    && RevokedInPlane(sys.plane, sys.net.revoked)
  }
}
