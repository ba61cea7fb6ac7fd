/** Every phase a phase depends on, directly or through others, over a declared
    graph that may be cyclic. */
module PhaseClosure {
  import opened CodeUnits

  type Graph = map<Text, seq<Text>>

  function Needs(byKey: Graph, key: Text): seq<Text> { if key in byKey then byKey[key] else [] }

  /** A chain of dependencies that starts at one of `roots`. */
  ghost predicate Chain(roots: seq<Text>, byKey: Graph, path: seq<Text>) {
    && path != [] && path[0] in roots
    && forall i :: 0 <= i < |path| - 1 ==> path[i + 1] in Needs(byKey, path[i])
  }

  ghost predicate Reaches(roots: seq<Text>, byKey: Graph, key: Text) {
    exists path :: Chain(roots, byKey, path) && path[|path| - 1] == key
  }

  lemma RootReaches(roots: seq<Text>, byKey: Graph, key: Text)
    requires key in roots
    ensures Reaches(roots, byKey, key)
  {
    assert Chain(roots, byKey, [key]);
  }

  lemma NeedReaches(roots: seq<Text>, byKey: Graph, key: Text, need: Text)
    requires Reaches(roots, byKey, key) && need in Needs(byKey, key)
    ensures Reaches(roots, byKey, need)
  {
    var path :| Chain(roots, byKey, path) && path[|path| - 1] == key;
    var longer := path + [need];
    forall i | 0 <= i < |longer| - 1 ensures longer[i + 1] in Needs(byKey, longer[i]) { }
    assert Chain(roots, byKey, longer);
  }

  lemma {:induction false} ChainStays(roots: seq<Text>, byKey: Graph, found: seq<Text>, path: seq<Text>)
    requires Chain(roots, byKey, path)
    requires forall key :: key in roots ==> key in found
    requires forall key, need :: key in found && need in Needs(byKey, key) ==> need in found
    ensures path[|path| - 1] in found
  {
    if |path| > 1 {
      var front := path[..|path| - 1];
      assert Chain(roots, byKey, front);
      ChainStays(roots, byKey, found, front);
      assert path[|path| - 1] in Needs(byKey, front[|front| - 1]);
    }
  }

  /** Every key the worklist can ever hold. */
  ghost function Universe(roots: seq<Text>, byKey: Graph): set<Text> {
    (set key | key in roots) + set from, key | from in byKey && key in byKey[from] :: key
  }

  ghost predicate Within(keys: seq<Text>, all: set<Text>) { forall key :: key in keys ==> key in all }

  /** Where the worklist stands: what it holds is reachable, and whatever the found
      keys need, and every root, is found or pending. */
  ghost predicate Working(roots: seq<Text>, byKey: Graph, found: seq<Text>, pending: seq<Text>) {
    && NoneTwice(found)
    && Within(found, Universe(roots, byKey)) && Within(pending, Universe(roots, byKey))
    && (forall key :: key in found || key in pending ==> Reaches(roots, byKey, key))
    && (forall key :: key in roots ==> key in found || key in pending)
    && forall key, need :: key in found && need in Needs(byKey, key) ==> need in found || need in pending
  }

  lemma WorkStarts(roots: seq<Text>, byKey: Graph)
    ensures Working(roots, byKey, [], roots)
  {
    forall key | key in roots ensures Reaches(roots, byKey, key) { RootReaches(roots, byKey, key); }
  }

  lemma KnownKeyIsSkipped(roots: seq<Text>, byKey: Graph, found: seq<Text>, pending: seq<Text>, key: Text)
    requires Working(roots, byKey, found, pending + [key]) && key in found
    ensures Working(roots, byKey, found, pending)
  {
    hide Reaches, Universe;
    forall k | k in pending ensures k in pending + [key] { }
  }

  lemma NewKeyIsExpanded(roots: seq<Text>, byKey: Graph, found: seq<Text>, pending: seq<Text>, key: Text)
    requires Working(roots, byKey, found, pending + [key]) && key !in found
    ensures Working(roots, byKey, found + [key], pending + Needs(byKey, key))
  {
    assert key in pending + [key];
    forall need | need in Needs(byKey, key) ensures Reaches(roots, byKey, need) && need in Universe(roots, byKey) {
      NeedReaches(roots, byKey, key, need);
    }
    hide Reaches, Universe, Needs;
    forall k | k in pending ensures k in pending + [key] { }
  }

  ghost function Left(roots: seq<Text>, byKey: Graph, found: seq<Text>): set<Text> {
    Universe(roots, byKey) - set key | key in found
  }

  lemma LessIsLeft(roots: seq<Text>, byKey: Graph, found: seq<Text>, key: Text)
    requires key in Universe(roots, byKey) && key !in found
    ensures |Left(roots, byKey, found + [key])| < |Left(roots, byKey, found)|
  {
    hide Universe;
    assert Left(roots, byKey, found + [key]) == Left(roots, byKey, found) - {key};
  }

  /** Exactly the keys reached by one or more dependencies, each once and in order;
      the loop ends on cyclic graphs too, the phase itself being a result then. */
  method TransitivePhaseDependencies(dependsOn: seq<Text>, byKey: Graph) returns (keys: seq<Text>)
    ensures forall key :: key in keys <==> Reaches(dependsOn, byKey, key)
    ensures Ascending(keys) && NoneTwice(keys)
  {
    hide Universe, Needs, Left;
    var found: seq<Text> := [];
    var pending := dependsOn;
    WorkStarts(dependsOn, byKey);
    while pending != []
      invariant Working(dependsOn, byKey, found, pending)
      decreases |Left(dependsOn, byKey, found)|, |pending|
    {
      hide Reaches;
      var key := pending[|pending| - 1];
      assert pending == pending[..|pending| - 1] + [key];
      pending := pending[..|pending| - 1];
      if key in found {
        KnownKeyIsSkipped(dependsOn, byKey, found, pending, key);
      } else {
        NewKeyIsExpanded(dependsOn, byKey, found, pending, key);
        assert key in found + [key];
        LessIsLeft(dependsOn, byKey, found, key);
        found := found + [key];
        pending := pending + Needs(byKey, key);
      }
    }
    FoundIsAll(dependsOn, byKey, found);
    keys := Sorted(found);
    SortedIsSorted(found);
    SortedHoldsTheSame(found);
  }

  lemma FoundIsAll(roots: seq<Text>, byKey: Graph, found: seq<Text>)
    requires Working(roots, byKey, found, [])
    ensures NoneTwice(found) && forall key :: key in found <==> Reaches(roots, byKey, key)
  {
    forall key | Reaches(roots, byKey, key) ensures key in found { ReachedIsFound(roots, byKey, found, key); }
    hide Reaches, Universe, Needs, NoneTwice;
  }

  lemma ReachedIsFound(roots: seq<Text>, byKey: Graph, found: seq<Text>, key: Text)
    requires Working(roots, byKey, found, []) && Reaches(roots, byKey, key)
    ensures key in found
  {
    hide Needs, Universe, NoneTwice;
    var path :| Chain(roots, byKey, path) && path[|path| - 1] == key;
    ChainStays(roots, byKey, found, path);
  }
}
