/** The order in which a sequential run reaches its phases, recovered from what
    each phase depends on. */
module PhaseOrder {
  type Key = string

  datatype Phase = Phase(key: Key, dependsOn: seq<Key>)

  function Keys(phases: seq<Phase>): (keys: seq<Key>)
    ensures |keys| == |phases| && forall i :: 0 <= i < |keys| ==> keys[i] == phases[i].key
  {
    seq(|phases|, i requires 0 <= i < |phases| => phases[i].key)
  }

  predicate Known(phases: seq<Phase>, key: Key) { exists i :: 0 <= i < |phases| && phases[i].key == key }

  predicate Satisfied(remaining: seq<Phase>, placed: set<Key>, need: Key) { need in placed || !Known(remaining, need) }

  predicate Ready(remaining: seq<Phase>, placed: set<Key>, phase: Phase) {
    forall n :: 0 <= n < |phase.dependsOn| ==> Satisfied(remaining, placed, phase.dependsOn[n])
  }

  function Without(phases: seq<Phase>, at: nat): seq<Phase>
    requires at < |phases|
  {
    phases[..at] + phases[at + 1..]
  }

  /** The first ready phase at or after `from`, -1 when every one waits. */
  function FirstReady(remaining: seq<Phase>, placed: set<Key>, from: nat): (at: int)
    requires from <= |remaining|
    ensures -1 <= at < |remaining|
    ensures at >= 0 ==> from <= at && Ready(remaining, placed, remaining[at])
    ensures forall i :: from <= i < (if at < 0 then |remaining| else at) ==> !Ready(remaining, placed, remaining[i])
    decreases |remaining| - from
  {
    if from == |remaining| then -1
    else if Ready(remaining, placed, remaining[from]) then from
    else FirstReady(remaining, placed, from + 1)
  }

  /** The position taken: the first ready phase, or the head when none is ready. */
  function Taken(remaining: seq<Phase>, placed: set<Key>): (at: nat)
    requires remaining != []
    ensures at < |remaining|
  {
    var at := FirstReady(remaining, placed, 0);
    if at < 0 then 0 else at
  }

  function OrderOf(remaining: seq<Phase>, placed: set<Key>): seq<Phase>
    decreases |remaining|
  {
    if remaining == [] then []
    else
      var at := Taken(remaining, placed);
      [remaining[at]] + OrderOf(Without(remaining, at), placed + {remaining[at].key})
  }

  lemma OrderUnfolds(ordered: seq<Key>, remaining: seq<Phase>, placed: set<Key>)
    requires remaining != []
    ensures var p := remaining[Taken(remaining, placed)];
            ordered + Keys(OrderOf(remaining, placed))
            == ordered + [p.key] + Keys(OrderOf(Without(remaining, Taken(remaining, placed)), placed + {p.key}))
  {
    hide OrderOf, Taken, Without, Keys, FirstReady;
    TakingUnfolds(remaining, placed);
    var p := remaining[Taken(remaining, placed)];
    var tail := OrderOf(Without(remaining, Taken(remaining, placed)), placed + {p.key});
    KeysPrepend(ordered, p, tail);
  }

  lemma KeysPrepend(ordered: seq<Key>, p: Phase, tail: seq<Phase>)
    ensures ordered + Keys([p] + tail) == ordered + [p.key] + Keys(tail)
  {
    assert Keys([p] + tail) == [p.key] + Keys(tail);
  }

  /** The loop itself: splice the chosen phase out of what remains. */
  method PhaseSequence(registry: seq<Phase>) returns (ordered: seq<Key>)
    ensures ordered == Keys(OrderOf(registry, {}))
  {
    var remaining := registry;
    var placed: set<Key> := {};
    ordered := [];
    while remaining != []
      invariant Keys(OrderOf(registry, {})) == ordered + Keys(OrderOf(remaining, placed))
      decreases |remaining|
    {
      hide Ready, OrderOf, Keys, FirstReady, Without;
      var at := FindReady(remaining, placed);
      var index := if at < 0 then 0 else at;
      var phase := remaining[index];
      OrderUnfolds(ordered, remaining, placed);
      remaining := Without(remaining, index);
      ordered := ordered + [phase.key];
      placed := placed + {phase.key};
    }
  }

  method FindReady(remaining: seq<Phase>, placed: set<Key>) returns (at: int)
    ensures at == FirstReady(remaining, placed, 0)
  {
    at := 0;
    while at < |remaining|
      invariant 0 <= at <= |remaining|
      invariant FirstReady(remaining, placed, 0) == FirstReady(remaining, placed, at)
    {
      if Ready(remaining, placed, remaining[at]) { return; }
      at := at + 1;
    }
    at := -1;
  }

  // ----- every phase exactly once

  /** The declared phases, rearranged; true of cyclic workflows too. */
  lemma {:induction false} OrderIsPermutation(remaining: seq<Phase>, placed: set<Key>)
    ensures multiset(OrderOf(remaining, placed)) == multiset(remaining)
    decreases |remaining|
  {
    if remaining != [] {
      var at := Taken(remaining, placed);
      assert remaining == remaining[..at] + ([remaining[at]] + remaining[at + 1..]);
      OrderIsPermutation(Without(remaining, at), placed + {remaining[at].key});
    }
  }

  // ----- topological orders

  predicate DistinctKeys(phases: seq<Phase>) {
    forall i, j :: 0 <= i < j < |phases| ==> phases[i].key != phases[j].key
  }

  predicate Precedes(order: seq<Phase>, key: Key, i: nat) { exists j :: 0 <= j < i && j < |order| && order[j].key == key }

  /** An arrangement of the phases in which each follows every phase it needs. */
  ghost predicate Topological(order: seq<Phase>, registry: seq<Phase>) {
    && multiset(order) == multiset(registry)
    && forall i, n {:trigger order[i].dependsOn[n]} :: 0 <= i < |order| && 0 <= n < |order[i].dependsOn| ==>
         Known(registry, order[i].dependsOn[n]) ==> Precedes(order, order[i].dependsOn[n], i)
  }

  /** Whether the head is ever taken because nothing was ready. */
  predicate FallbackFree(remaining: seq<Phase>, placed: set<Key>)
    decreases |remaining|
  {
    remaining == [] ||
    (FirstReady(remaining, placed, 0) >= 0 &&
     var at := Taken(remaining, placed); FallbackFree(Without(remaining, at), placed + {remaining[at].key}))
  }

  predicate NeedsOneOf(p: Phase, phases: set<Phase>) {
    exists q, n :: q in phases && 0 <= n < |p.dependsOn| && p.dependsOn[n] == q.key
  }

  /** A dependency deadlock: phases each of which needs one of them. */
  predicate Blocked(phases: set<Phase>) { phases != {} && forall p :: p in phases ==> NeedsOneOf(p, phases) }

  // The same orders one phase at a time, over the set of what is left.

  function Elements(phases: seq<Phase>): set<Phase> { set p | p in phases }

  ghost predicate Linear(order: seq<Phase>, left: set<Phase>) {
    if order == [] then left == {}
    else order[0] in left && !NeedsOneOf(order[0], left) && Linear(order[1..], left - {order[0]})
  }

  lemma ElementsWithout(phases: seq<Phase>, at: nat)
    requires DistinctKeys(phases) && at < |phases|
    ensures DistinctKeys(Without(phases, at))
    ensures Elements(Without(phases, at)) == Elements(phases) - {phases[at]}
  {
    var rest := Without(phases, at);
    forall p | p in Elements(phases) - {phases[at]} ensures p in rest {
      var i :| 0 <= i < |phases| && phases[i] == p;
      assert rest[if i < at then i else i - 1] == p;
    }
    forall p | p in rest ensures p in Elements(phases) && p != phases[at] {
      var i :| 0 <= i < |rest| && rest[i] == p;
      assert p == phases[if i < at then i else i + 1];
    }
  }

  ghost predicate Gone(placed: set<Key>, remaining: seq<Phase>) { forall key :: key in placed ==> !Known(remaining, key) }

  lemma ReadyNeedsNone(remaining: seq<Phase>, placed: set<Key>, phase: Phase)
    requires Gone(placed, remaining)
    ensures Ready(remaining, placed, phase) <==> !NeedsOneOf(phase, Elements(remaining))
  {
    if Ready(remaining, placed, phase) {
      forall q, n | q in Elements(remaining) && 0 <= n < |phase.dependsOn| ensures phase.dependsOn[n] != q.key {
        assert Satisfied(remaining, placed, phase.dependsOn[n]);
      }
    } else {
      var n :| 0 <= n < |phase.dependsOn| && !Satisfied(remaining, placed, phase.dependsOn[n]);
      var i :| 0 <= i < |remaining| && remaining[i].key == phase.dependsOn[n];
      assert remaining[i] in Elements(remaining);
    }
  }

  lemma StaysGone(remaining: seq<Phase>, placed: set<Key>, at: nat)
    requires DistinctKeys(remaining) && at < |remaining| && Gone(placed, remaining)
    ensures Gone(placed + {remaining[at].key}, Without(remaining, at))
  {
    forall i | 0 <= i < |Without(remaining, at)| ensures Without(remaining, at)[i].key !in placed + {remaining[at].key} {
      var k := if i < at then i else i + 1;
      assert Without(remaining, at)[i] == remaining[k];
      assert Known(remaining, remaining[k].key);
    }
  }

  function Drop(order: seq<Phase>, p: Phase): seq<Phase> {
    if order == [] then [] else if order[0] == p then order[1..] else [order[0]] + Drop(order[1..], p)
  }

  /** Any phase may be removed from an order and from what it orders. */
  lemma {:induction false} LinearWithout(order: seq<Phase>, left: set<Phase>, p: Phase)
    requires Linear(order, left) && p in left
    ensures Linear(Drop(order, p), left - {p})
  {
    if order[0] != p {
      LinearWithout(order[1..], left - {order[0]}, p);
      assert left - {p} - {order[0]} == left - {order[0]} - {p};
    }
  }

  // ----- the greedy order is the least topological order

  /** Phases in the order of `rank`. */
  ghost predicate Ranked(phases: seq<Phase>, rank: Phase -> int) {
    forall i, j :: 0 <= i < j < |phases| ==> rank(phases[i]) < rank(phases[j])
  }

  /** `a` is `b` or ranks lower at the first place where they differ. */
  ghost predicate NotAfter(rank: Phase -> int, a: seq<Phase>, b: seq<Phase>) {
    a == b || exists d :: 0 <= d < |a| && d < |b| && a[..d] == b[..d] && rank(a[d]) < rank(b[d])
  }

  lemma {:induction false} GreedyIsLeast(remaining: seq<Phase>, placed: set<Key>, order: seq<Phase>, rank: Phase -> int)
    requires DistinctKeys(remaining) && Gone(placed, remaining)
    requires Linear(order, Elements(remaining)) && Ranked(remaining, rank)
    ensures FallbackFree(remaining, placed)
    ensures NotAfter(rank, OrderOf(remaining, placed), order)
    decreases |remaining|
  {
    hide Ready, Gone, NeedsOneOf, NotAfter, DistinctKeys, Known, OrderOf, FirstReady, Taken, Linear, Ranked, FallbackFree, Drop, Elements;
    if remaining == [] {
      NothingIsOrdered(placed, order);
      EqualIsNotAfter(rank, []);
    } else {
      var first := HeadOfOrder(remaining, order);
      ReadyNeedsNone(remaining, placed, order[0]);
      TakenIsFirst(remaining, placed, first);
      var at := Taken(remaining, placed);
      var p, rest := remaining[at], Without(remaining, at);
      TakenIsElement(remaining, at);
      LinearWithout(order, Elements(remaining), p);
      StaysGone(remaining, placed, at);
      ElementsWithout(remaining, at);
      RankedWithout(remaining, at, rank);
      GreedyIsLeast(rest, placed + {p.key}, Drop(order, p), rank);
      TakingUnfolds(remaining, placed);
      if p == order[0] {
        DropsHead(order);
        NotAfterPrepends(rank, p, OrderOf(rest, placed + {p.key}), order[1..]);
      } else {
        RankedAt(remaining, rank, at, first);
        LowerHead(rank, OrderOf(remaining, placed), order);
      }
    }
  }

  lemma NothingIsOrdered(placed: set<Key>, order: seq<Phase>)
    requires Linear(order, Elements([]))
    ensures order == [] && FallbackFree([], placed) && OrderOf([], placed) == []
  {
  }

  lemma HeadOfOrder(remaining: seq<Phase>, order: seq<Phase>) returns (first: nat)
    requires remaining != [] && Linear(order, Elements(remaining))
    ensures order != [] && first < |remaining| && remaining[first] == order[0] && !NeedsOneOf(order[0], Elements(remaining))
  {
    assert remaining[0] in Elements(remaining);
    first :| first < |remaining| && remaining[first] == order[0];
  }

  lemma TakenIsFirst(remaining: seq<Phase>, placed: set<Key>, first: nat)
    requires first < |remaining| && Ready(remaining, placed, remaining[first])
    ensures FirstReady(remaining, placed, 0) >= 0 && Taken(remaining, placed) <= first
  {
    hide Ready;
  }

  lemma TakenIsElement(phases: seq<Phase>, at: nat)
    requires at < |phases|
    ensures phases[at] in Elements(phases)
  {
  }

  lemma RankedWithout(phases: seq<Phase>, at: nat, rank: Phase -> int)
    requires at < |phases| && Ranked(phases, rank)
    ensures Ranked(Without(phases, at), rank)
  {
  }

  lemma RankedAt(phases: seq<Phase>, rank: Phase -> int, i: nat, j: nat)
    requires Ranked(phases, rank) && i <= j < |phases| && phases[i] != phases[j]
    ensures rank(phases[i]) < rank(phases[j])
  {
  }

  /** One unfolding of the order, and of being free of the fallback. */
  lemma TakingUnfolds(remaining: seq<Phase>, placed: set<Key>)
    requires remaining != []
    ensures var at := Taken(remaining, placed);
            var rest, more := Without(remaining, at), placed + {remaining[at].key};
            && OrderOf(remaining, placed) == [remaining[at]] + OrderOf(rest, more)
            && (FirstReady(remaining, placed, 0) >= 0 && FallbackFree(rest, more) ==> FallbackFree(remaining, placed))
  {
    hide FirstReady, Taken, Without;
  }

  lemma DropsHead(order: seq<Phase>)
    requires order != []
    ensures Drop(order, order[0]) == order[1..] && order == [order[0]] + order[1..]
  {
  }

  lemma EqualIsNotAfter(rank: Phase -> int, a: seq<Phase>)
    ensures NotAfter(rank, a, a)
  {
  }

  lemma LowerHead(rank: Phase -> int, a: seq<Phase>, b: seq<Phase>)
    requires a != [] && b != [] && rank(a[0]) < rank(b[0])
    ensures NotAfter(rank, a, b)
  {
    assert a[..0] == b[..0];
  }

  lemma NotAfterPrepends(rank: Phase -> int, p: Phase, a: seq<Phase>, b: seq<Phase>)
    requires NotAfter(rank, a, b)
    ensures NotAfter(rank, [p] + a, [p] + b)
  {
    if a != b {
      var d :| 0 <= d < |a| && d < |b| && a[..d] == b[..d] && rank(a[d]) < rank(b[d]);
      var pa, pb := [p] + a, [p] + b;
      assert pa[..d + 1] == [p] + a[..d];
      assert pb[..d + 1] == [p] + b[..d];
      assert rank(pa[d + 1]) < rank(pb[d + 1]);
    }
  }

  lemma {:induction false} FallbackFreeIsLinear(remaining: seq<Phase>, placed: set<Key>)
    requires DistinctKeys(remaining) && Gone(placed, remaining) && FallbackFree(remaining, placed)
    ensures Linear(OrderOf(remaining, placed), Elements(remaining))
    decreases |remaining|
  {
    hide Ready, Gone, NeedsOneOf;
    if remaining != [] {
      var at := Taken(remaining, placed);
      ReadyNeedsNone(remaining, placed, remaining[at]);
      StaysGone(remaining, placed, at);
      ElementsWithout(remaining, at);
      var tail := OrderOf(Without(remaining, at), placed + {remaining[at].key});
      FallbackFreeIsLinear(Without(remaining, at), placed + {remaining[at].key});
      assert OrderOf(remaining, placed) == [remaining[at]] + tail;
    }
  }

  // ----- one phase at a time and all at once

  lemma {:induction false} LinearCounts(order: seq<Phase>, left: set<Phase>)
    requires Linear(order, left)
    ensures multiset(order) == multiset(left)
  {
    if order != [] {
      LinearCounts(order[1..], left - {order[0]});
      assert order == [order[0]] + order[1..];
    }
  }

  lemma {:induction false} DistinctCounts(phases: seq<Phase>)
    requires DistinctKeys(phases)
    ensures multiset(phases) == multiset(Elements(phases))
  {
    if phases != [] {
      ElementsWithout(phases, 0);
      assert Without(phases, 0) == phases[1..];
      DistinctCounts(phases[1..]);
      assert phases == [phases[0]] + phases[1..];
    }
  }

  /** Each phase follows every phase of `all` that it needs. */
  ghost predicate Follows(order: seq<Phase>, all: set<Phase>) {
    forall i, q :: 0 <= i < |order| && q in all && NeedsOneOf(order[i], {q}) ==> q in order[..i]
  }

  lemma {:induction false} FollowsIsLinear(order: seq<Phase>, left: set<Phase>)
    requires multiset(order) == multiset(left) && Follows(order, left)
    ensures Linear(order, left)
  {
    if order == [] {
      assert |multiset(order)| == |multiset(left)|;
    } else {
      var tail, rest := order[1..], left - {order[0]};
      assert order == [order[0]] + tail;
      assert order[0] in multiset(left);
      assert multiset(rest) == multiset(left) - multiset{order[0]} == multiset(tail);
      hide Follows, NeedsOneOf;
      FollowsInTail(order, left);
      FollowsIsLinear(tail, rest);
      HeadNeedsNone(order, left);
    }
  }

  lemma FollowsInTail(order: seq<Phase>, left: set<Phase>)
    requires order != [] && Follows(order, left)
    ensures Follows(order[1..], left - {order[0]})
  {
    hide NeedsOneOf;
    var tail, rest := order[1..], left - {order[0]};
    forall i, q | 0 <= i < |tail| && q in rest && NeedsOneOf(tail[i], {q}) ensures q in tail[..i] {
      assert tail[i] == order[i + 1];
      var k :| 0 <= k < i + 1 && order[..i + 1][k] == q;
      assert tail[..i][k - 1] == q;
    }
  }

  lemma HeadNeedsNone(order: seq<Phase>, left: set<Phase>)
    requires order != [] && Follows(order, left)
    ensures !NeedsOneOf(order[0], left)
  {
    assert order[..0] == [];
    forall q, n | q in left && 0 <= n < |order[0].dependsOn| ensures order[0].dependsOn[n] != q.key {
      if order[0].dependsOn[n] == q.key { NeedOf(order[0], n, q); }
    }
  }

  lemma {:induction false} LinearFollows(order: seq<Phase>, left: set<Phase>)
    requires Linear(order, left)
    ensures Follows(order, left)
  {
    if order != [] {
      var tail, rest := order[1..], left - {order[0]};
      LinearFollows(tail, rest);
      forall q | q in left ensures !NeedsOneOf(order[0], {q}) { NeedsGrow(order[0], {q}, left); }
      forall i, q | 1 <= i < |order| && q in left && NeedsOneOf(order[i], {q}) ensures q in order[..i] {
        if q == order[0] {
          assert order[..i][0] == q;
        } else {
          assert q in tail[..i - 1];
          assert order[..i] == [order[0]] + tail[..i - 1];
        }
      }
    }
  }

  lemma TopologicalFollows(order: seq<Phase>, registry: seq<Phase>)
    requires DistinctKeys(registry) && multiset(order) == multiset(registry)
    ensures Topological(order, registry) <==> Follows(order, Elements(registry))
  {
    hide NeedsOneOf;
    forall p | p in order ensures p in registry { assert p in multiset(order); }
    forall p | p in registry ensures p in order { assert p in multiset(registry); }
    if Topological(order, registry) {
      forall i, q | 0 <= i < |order| && q in Elements(registry) && NeedsOneOf(order[i], {q}) ensures q in order[..i] {
        var n := NeedAt(order[i], q);
        assert Known(registry, q.key);
        assert Precedes(order, order[i].dependsOn[n], i);
        var j :| 0 <= j < i && order[j].key == q.key;
        assert order[j] in registry;
        assert order[..i][j] == q;
      }
    }
    if Follows(order, Elements(registry)) {
      forall i, n | 0 <= i < |order| && 0 <= n < |order[i].dependsOn| && Known(registry, order[i].dependsOn[n])
        ensures Precedes(order, order[i].dependsOn[n], i)
      {
        var k :| 0 <= k < |registry| && registry[k].key == order[i].dependsOn[n];
        NeedOf(order[i], n, registry[k]);
        assert registry[k] in order[..i];
      }
    }
  }

  lemma NeedAt(p: Phase, q: Phase) returns (n: nat)
    requires NeedsOneOf(p, {q})
    ensures n < |p.dependsOn| && p.dependsOn[n] == q.key
  {
    var r, m :| r in {q} && 0 <= m < |p.dependsOn| && p.dependsOn[m] == r.key;
    n := m;
  }

  lemma NeedOf(p: Phase, n: nat, q: Phase)
    requires n < |p.dependsOn| && p.dependsOn[n] == q.key
    ensures NeedsOneOf(p, {q})
  {
    assert q in {q};
  }

  lemma TopologicalIsLinear(order: seq<Phase>, registry: seq<Phase>)
    requires DistinctKeys(registry)
    ensures Topological(order, registry) <==> Linear(order, Elements(registry))
  {
    hide Linear, Follows;
    DistinctCounts(registry);
    if Topological(order, registry) {
      TopologicalFollows(order, registry);
      FollowsIsLinear(order, Elements(registry));
    }
    if Linear(order, Elements(registry)) {
      LinearCounts(order, Elements(registry));
      LinearFollows(order, Elements(registry));
      TopologicalFollows(order, registry);
    }
  }

  // ----- main results

  /** The head is never taken blindly exactly when some topological order exists;
      the result is then the topological order that comes first by registry
      position. */
  lemma SequenceIsLeastTopological(registry: seq<Phase>, rank: Phase -> int)
    requires DistinctKeys(registry) && Ranked(registry, rank)
    ensures FallbackFree(registry, {}) <==> exists order :: Topological(order, registry)
    ensures FallbackFree(registry, {}) <==> Topological(OrderOf(registry, {}), registry)
    ensures forall order :: Topological(order, registry) ==> NotAfter(rank, OrderOf(registry, {}), order)
  {
    hide Topological, Linear, NotAfter;
    if FallbackFree(registry, {}) {
      FallbackFreeIsLinear(registry, {});
      TopologicalIsLinear(OrderOf(registry, {}), registry);
    }
    forall order | Topological(order, registry)
      ensures FallbackFree(registry, {}) && NotAfter(rank, OrderOf(registry, {}), order)
    {
      TopologicalIsLinear(order, registry);
      GreedyIsLeast(registry, {}, order, rank);
    }
  }

  /** The fallback is taken exactly when some declared phases wait on each other. */
  lemma FallbackMeansDeadlock(registry: seq<Phase>)
    requires DistinctKeys(registry)
    ensures !FallbackFree(registry, {}) <==> exists phases :: phases <= Elements(registry) && Blocked(phases)
  {
    hide Blocked, Linear;
    if FallbackFree(registry, {}) {
      FallbackFreeIsLinear(registry, {});
      forall phases | phases <= Elements(registry) ensures !Blocked(phases) {
        LinearLeavesNoneBlocked(OrderOf(registry, {}), Elements(registry), phases);
      }
    } else {
      var phases := StuckAreBlocked(registry, {});
    }
  }

  lemma {:induction false} StuckAreBlocked(remaining: seq<Phase>, placed: set<Key>) returns (phases: set<Phase>)
    requires DistinctKeys(remaining) && Gone(placed, remaining) && !FallbackFree(remaining, placed)
    ensures phases <= Elements(remaining) && Blocked(phases)
    decreases |remaining|
  {
    hide Ready, Gone, NeedsOneOf;
    if FirstReady(remaining, placed, 0) < 0 {
      phases := Elements(remaining);
      assert remaining[0] in phases;
      forall p | p in phases ensures NeedsOneOf(p, phases) {
        ReadyNeedsNone(remaining, placed, p);
      }
    } else {
      var at := Taken(remaining, placed);
      StaysGone(remaining, placed, at);
      ElementsWithout(remaining, at);
      phases := StuckAreBlocked(Without(remaining, at), placed + {remaining[at].key});
    }
  }

  lemma {:induction false} LinearLeavesNoneBlocked(order: seq<Phase>, left: set<Phase>, phases: set<Phase>)
    requires Linear(order, left) && phases <= left
    ensures !Blocked(phases)
  {
    if order != [] {
      if order[0] in phases {
        NeedsGrow(order[0], phases, left);
      } else {
        LinearLeavesNoneBlocked(order[1..], left - {order[0]}, phases);
      }
    }
  }

  lemma NeedsGrow(p: Phase, some: set<Phase>, more: set<Phase>)
    requires some <= more
    ensures NeedsOneOf(p, some) ==> NeedsOneOf(p, more)
  {
    if NeedsOneOf(p, some) {
      var q, n :| q in some && 0 <= n < |p.dependsOn| && p.dependsOn[n] == q.key;
      assert q in more;
    }
  }
}
