/** A sequential run's walk over the phases: where it starts, what follows each
    closed phase, and exactly when it reaches every phase. */
module PhaseWalk {
  import opened Options
  import opened PhaseOrder

  function IndexOf(keys: seq<Key>, key: Key): (i: int)
    ensures -1 <= i < |keys|
    ensures i >= 0 ==> keys[i] == key
    ensures key in keys <==> i >= 0
  {
    if keys == [] then -1
    else if keys[0] == key then 0
    else
      assert keys == [keys[0]] + keys[1..];
      var rest := IndexOf(keys[1..], key);
      if rest < 0 then -1 else rest + 1
  }

  function Sequence(registry: seq<Phase>): seq<Key> { Keys(OrderOf(registry, {})) }

  /** The phase that becomes current once `closed` closes, if the graph has a node for it. */
  function NextPhase(order: seq<Key>, nodes: seq<Phase>, closed: Key): Option<Key> {
    var at := IndexOf(order, closed) + 1;
    if at < |order| && Known(nodes, order[at]) then Some(order[at]) else None
  }

  lemma NextIsLater(order: seq<Key>, nodes: seq<Phase>, closed: Key)
    requires Distinct(order) && NextPhase(order, nodes, closed).Some?
    ensures IndexOf(order, NextPhase(order, nodes, closed).value) == IndexOf(order, closed) + 1
  {
  }

  predicate Distinct(keys: seq<Key>) { forall i, j :: 0 <= i < j < |keys| ==> keys[i] != keys[j] }

  /** The phases a run goes through from `from` on. */
  function Visited(order: seq<Key>, nodes: seq<Phase>, from: Key): seq<Key>
    requires Distinct(order)
    decreases |order| - IndexOf(order, from)
  {
    match NextPhase(order, nodes, from)
    case None => [from]
    case Some(next) =>
      NextIsLater(order, nodes, from);
      [from] + Visited(order, nodes, next)
  }

  /** The first graph node without dependencies; None stands for the refusal. */
  function FirstRoot(nodes: seq<Phase>): (root: Option<Key>)
    ensures root.None? <==> forall p :: p in nodes ==> p.dependsOn != []
    ensures root.Some? ==> exists i :: 0 <= i < |nodes| && nodes[i].key == root.value && nodes[i].dependsOn == []
  {
    if nodes == [] then None
    else if nodes[0].dependsOn == [] then Some(nodes[0].key)
    else
      assert nodes == [nodes[0]] + nodes[1..];
      var root := FirstRoot(nodes[1..]);
      assert forall i :: 0 <= i < |nodes[1..]| ==> nodes[1..][i] == nodes[i + 1];
      root
  }

  /** A start phase named by the caller is the node with that key. */
  function StartPhase(nodes: seq<Phase>, named: Option<Key>): Option<Key> {
    match named
    case None => FirstRoot(nodes)
    case Some(key) => if Known(nodes, key) then Some(key) else None
  }

  /** Every dependency names a declared phase. */
  predicate Declared(registry: seq<Phase>) {
    forall p, n :: p in registry && 0 <= n < |p.dependsOn| ==> Known(registry, p.dependsOn[n])
  }

  // ----- proofs

  lemma DistinctIsKept(phases: seq<Phase>, others: seq<Phase>)
    requires DistinctKeys(phases) && multiset(phases) == multiset(others)
    ensures DistinctKeys(others)
  {
    forall i, j | 0 <= i < j < |others| ensures others[i].key != others[j].key {
      assert others[i] in multiset(phases) && others[j] in multiset(phases);
      if others[i] == others[j] {
        assert others == others[..j] + ([others[j]] + others[j + 1..]);
        assert others[..j][i] == others[i];
        assert multiset(others[..j])[others[i]] >= 1;
        assert multiset(others)[others[i]] >= 2;
        AtMostOnce(phases, others[i]);
      }
    }
  }

  lemma {:induction false} AtMostOnce(phases: seq<Phase>, p: Phase)
    requires DistinctKeys(phases)
    ensures multiset(phases)[p] <= 1
  {
    if phases != [] {
      assert phases == [phases[0]] + phases[1..];
      AtMostOnce(phases[1..], p);
      forall i | 0 <= i < |phases[1..]| ensures phases[1..][i] != phases[0] {
        assert phases[1..][i].key == phases[i + 1].key;
      }
    }
  }

  lemma SequenceIsDistinct(registry: seq<Phase>)
    requires DistinctKeys(registry)
    ensures Distinct(Sequence(registry)) && |Sequence(registry)| == |registry|
    ensures forall key :: key in Sequence(registry) <==> Known(registry, key)
  {
    var order := OrderOf(registry, {});
    OrderIsPermutation(registry, {});
    hide OrderOf, Known;
    DistinctIsKept(registry, order);
    assert |multiset(order)| == |multiset(registry)|;
    forall key ensures key in Sequence(registry) <==> Known(registry, key) { KeysAreKnown(order, registry, key); }
  }

  lemma KeysAreKnown(order: seq<Phase>, registry: seq<Phase>, key: Key)
    requires multiset(order) == multiset(registry)
    ensures key in Keys(order) <==> Known(registry, key)
  {
    SameMembers(order, registry);
    if key in Keys(order) {
      var i :| 0 <= i < |order| && Keys(order)[i] == key;
      assert order[i] in registry;
    }
    if Known(registry, key) {
      var i :| 0 <= i < |registry| && registry[i].key == key;
      assert registry[i] in order;
      var j :| 0 <= j < |order| && order[j] == registry[i];
      assert Keys(order)[j] == key;
    }
  }

  lemma IndexIsPlace(order: seq<Key>, i: nat)
    requires Distinct(order) && i < |order|
    ensures IndexOf(order, order[i]) == i
  {
  }

  /** The walk is the rest of the order. */
  lemma {:induction false} VisitedIsTheRest(order: seq<Key>, nodes: seq<Phase>, from: Key)
    requires Distinct(order) && from in order && forall key :: key in order ==> Known(nodes, key)
    ensures Visited(order, nodes, from) == order[IndexOf(order, from)..]
    decreases |order| - IndexOf(order, from)
  {
    var at := IndexOf(order, from);
    if at + 1 < |order| {
      NextIsLater(order, nodes, from);
      VisitedIsTheRest(order, nodes, order[at + 1]);
      IndexIsPlace(order, at + 1);
      assert order[at..] == [from] + order[at + 1..];
    } else {
      assert order[at..] == [from];
    }
  }

  lemma OrderStartsAtFirstRoot(registry: seq<Phase>)
    requires Declared(registry) && FirstRoot(registry).Some?
    ensures registry != [] && Sequence(registry)[0] == FirstRoot(registry).value
  {
    assert registry != [];
    forall i | 0 <= i < |registry| ensures Ready(registry, {}, registry[i]) <==> registry[i].dependsOn == [] {
      if registry[i].dependsOn != [] {
        assert registry[i] in registry;
        assert !Satisfied(registry, {}, registry[i].dependsOn[0]);
      }
    }
    FirstReadyIsFirstRoot(registry, 0);
    assert registry[0..] == registry;
    assert OrderOf(registry, {})[0] == registry[Taken(registry, {})];
  }

  lemma {:induction false} FirstReadyIsFirstRoot(registry: seq<Phase>, from: nat)
    requires from <= |registry|
    requires forall i :: 0 <= i < |registry| ==> (Ready(registry, {}, registry[i]) <==> registry[i].dependsOn == [])
    ensures var at := FirstReady(registry, {}, from);
            FirstRoot(registry[from..]) == if at < 0 then None else Some(registry[at].key)
    decreases |registry| - from
  {
    hide Ready;
    if from < |registry| {
      assert registry[from..][1..] == registry[from + 1..];
      FirstReadyIsFirstRoot(registry, from + 1);
    }
  }

  // ----- main results

  /** Each declared phase exactly once. */
  ghost predicate Covers(visited: seq<Key>, registry: seq<Phase>) {
    Distinct(visited) && forall key :: key in visited <==> Known(registry, key)
  }

  /** A run visits each declared phase exactly once exactly when it starts at the
      head of the order; from anywhere else it misses what precedes. */
  lemma WalkCoversFromTheHead(registry: seq<Phase>, nodes: seq<Phase>, start: Key)
    requires DistinctKeys(registry) && multiset(nodes) == multiset(registry) && Known(nodes, start)
    ensures var order := Sequence(registry);
            && Distinct(order) && start in order
            && Visited(order, nodes, start) == order[IndexOf(order, start)..]
            && (Covers(Visited(order, nodes, start), registry) <==> start == order[0])
  {
    hide OrderOf, Known;
    var order := Sequence(registry);
    SameKnown(nodes, registry);
    SequenceIsDistinct(registry);
    VisitedIsTheRest(order, nodes, start);
    var at := IndexOf(order, start);
    assert order[0..] == order;
    if at > 0 {
      assert order[0] in order;
      assert order[0] !in order[at..];
    }
  }

  lemma SameKnown(a: seq<Phase>, b: seq<Phase>)
    requires multiset(a) == multiset(b)
    ensures forall key :: Known(a, key) <==> Known(b, key)
  {
    forall key ensures Known(a, key) <==> Known(b, key) {
      if Known(a, key) {
        var i :| 0 <= i < |a| && a[i].key == key;
        assert a[i] in multiset(b);
      }
      if Known(b, key) {
        var i :| 0 <= i < |b| && b[i].key == key;
        assert b[i] in multiset(a);
      }
    }
  }

  /** Left to choose, a run covers the workflow exactly when the graph and the
      registry agree on which root comes first. */
  lemma DefaultStartCovers(registry: seq<Phase>, nodes: seq<Phase>)
    requires DistinctKeys(registry) && Declared(registry) && multiset(nodes) == multiset(registry)
    requires StartPhase(nodes, None).Some?
    ensures Distinct(Sequence(registry))
    ensures Covers(Visited(Sequence(registry), nodes, StartPhase(nodes, None).value), registry)
            <==> FirstRoot(nodes) == FirstRoot(registry)
  {
    var start := StartPhase(nodes, None).value;
    var i :| 0 <= i < |nodes| && nodes[i].key == start && nodes[i].dependsOn == [];
    assert nodes[i] in multiset(registry);
    assert FirstRoot(registry).Some?;
    OrderStartsAtFirstRoot(registry);
    WalkCoversFromTheHead(registry, nodes, start);
  }

  lemma SameMembers(a: seq<Phase>, b: seq<Phase>)
    requires multiset(a) == multiset(b)
    ensures forall p :: p in a <==> p in b
  {
    forall p ensures p in a <==> p in b { assert p in multiset(a) <==> p in multiset(b); }
  }

  lemma OnlyRootIsFirst(phases: seq<Phase>, root: Phase)
    requires root in phases && forall p :: p in phases ==> (p.dependsOn == [] <==> p == root)
    ensures FirstRoot(phases) == Some(root.key) && Known(phases, root.key)
  {
    var at :| 0 <= at < |phases| && phases[at] == root;
    assert FirstRoot(phases).Some?;
    var i :| 0 <= i < |phases| && phases[i].key == FirstRoot(phases).value && phases[i].dependsOn == [];
    assert phases[i] in phases;
  }

  lemma HeadIsAtZero(keys: seq<Key>)
    requires keys != []
    ensures IndexOf(keys, keys[0]) == 0
  {
  }

  /** With a single root the two always agree, and when no phases wait on each
      other the walk is the least topological order of all of them. */
  lemma SingleRootIsCovered(registry: seq<Phase>, nodes: seq<Phase>, root: Phase)
    requires DistinctKeys(registry) && Declared(registry) && multiset(nodes) == multiset(registry)
    requires root in registry && forall p :: p in registry ==> (p.dependsOn == [] <==> p == root)
    ensures StartPhase(nodes, None) == Some(root.key)
    ensures Distinct(Sequence(registry))
    ensures Visited(Sequence(registry), nodes, root.key) == Sequence(registry)
    ensures Covers(Sequence(registry), registry)
    ensures FallbackFree(registry, {}) ==> Topological(OrderOf(registry, {}), registry)
  {
    hide FirstReady, OrderOf, FallbackFree, Topological, Covers, Declared, DistinctKeys, Distinct, Known, FirstRoot, Visited, Sequence;
    SameMembers(registry, nodes);
    OnlyRootIsFirst(registry, root);
    OnlyRootIsFirst(nodes, root);
    OrderStartsAtFirstRoot(registry);
    assert Sequence(registry)[0..] == Sequence(registry);
    WalkCoversFromTheHead(registry, nodes, root.key);
    HeadIsAtZero(Sequence(registry));
    if FallbackFree(registry, {}) {
      FallbackFreeIsLinear(registry, {});
      TopologicalIsLinear(OrderOf(registry, {}), registry);
    }
  }

  /** With two roots they may disagree: a graph listing `b` first starts there, and
      `a` is never reached. */
  lemma SecondRootIsMissed(a: Phase, b: Phase)
    requires a.key != b.key && a.dependsOn == [] && b.dependsOn == []
    ensures DistinctKeys([a, b]) && Declared([a, b]) && multiset([b, a]) == multiset([a, b])
    ensures Distinct(Sequence([a, b]))
    ensures StartPhase([b, a], None) == Some(b.key)
    ensures Visited(Sequence([a, b]), [b, a], b.key) == [b.key]
  {
    var registry, nodes := [a, b], [b, a];
    assert multiset(nodes) == multiset(registry);
    SequenceIsDistinct(registry);
    OrderStartsAtFirstRoot(registry);
    var order := Sequence(registry);
    assert Known(registry, registry[1].key);
    assert b.key in order && order[0] == a.key && order[1] == b.key;
    assert Known(nodes, nodes[0].key) && Known(nodes, nodes[1].key);
    assert IndexOf(order, b.key) == 1;
  }
}
