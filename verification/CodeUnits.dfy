/** Texts as sequences of UTF-16 code units, their order, and sorting by it. */
module CodeUnits {
  type Unit = u: int | 0 <= u < 0x1_0000
  type Text = seq<Unit>

  predicate IsLead(u: Unit) { 0xD800 <= u < 0xDC00 }
  predicate IsTrail(u: Unit) { 0xDC00 <= u < 0xE000 }

  /** The order of the platform's `<` on strings. */
  predicate Before(a: Text, b: Text) {
    b != [] && (a == [] || a[0] < b[0] || (a[0] == b[0] && Before(a[1..], b[1..])))
  }

  lemma {:induction false} BeforeIsTotal(a: Text, b: Text)
    ensures a == b || Before(a, b) || Before(b, a)
  {
    if a != [] && b != [] && a[0] == b[0] {
      BeforeIsTotal(a[1..], b[1..]);
      assert a == [a[0]] + a[1..] && b == [b[0]] + b[1..];
    }
  }

  lemma {:induction false} BeforeIsTransitive(a: Text, b: Text, c: Text)
    requires Before(a, b) && Before(b, c)
    ensures Before(a, c)
  {
    if a != [] && a[0] == b[0] && b[0] == c[0] {
      BeforeIsTransitive(a[1..], b[1..], c[1..]);
    }
  }

  lemma {:induction false} BeforeIsStrict(a: Text, b: Text)
    requires Before(a, b)
    ensures a != b && !Before(b, a)
  {
    if a != [] && a[0] == b[0] {
      BeforeIsStrict(a[1..], b[1..]);
    }
  }

  // ----- sorting

  /** No later text stands before an earlier one. */
  predicate Ascending(s: seq<Text>) { forall i, j :: 0 <= i < j < |s| ==> !Before(s[j], s[i]) }

  function Inserted(x: Text, sorted: seq<Text>): seq<Text> {
    if sorted == [] || Before(x, sorted[0]) then [x] + sorted else [sorted[0]] + Inserted(x, sorted[1..])
  }

  /** What the platform's sort returns for a list of texts. */
  function Sorted(s: seq<Text>): seq<Text> {
    if s == [] then [] else Inserted(s[|s| - 1], Sorted(s[..|s| - 1]))
  }

  lemma {:induction false} InsertedHolds(x: Text, sorted: seq<Text>)
    ensures multiset(Inserted(x, sorted)) == multiset(sorted) + multiset{x}
  {
    hide Before;
    if sorted != [] && !Before(x, sorted[0]) {
      InsertedHolds(x, sorted[1..]);
      assert sorted == [sorted[0]] + sorted[1..];
    }
  }

  lemma {:induction false} InsertedIsSorted(x: Text, sorted: seq<Text>)
    requires Ascending(sorted)
    ensures Ascending(Inserted(x, sorted)) && multiset(Inserted(x, sorted)) == multiset(sorted) + multiset{x}
  {
    InsertedHolds(x, sorted);
    hide Before;
    if sorted == [] {
    } else if Before(x, sorted[0]) {
      forall j | 0 <= j < |sorted| ensures !Before(sorted[j], x) {
        if Before(sorted[j], x) {
          BeforeIsTransitive(sorted[j], x, sorted[0]);
          BeforeIsStrict(sorted[j], sorted[0]);
        }
      }
    } else {
      var tail := Inserted(x, sorted[1..]);
      InsertedIsSorted(x, sorted[1..]);
      forall j | 0 <= j < |tail| ensures !Before(tail[j], sorted[0]) {
        assert tail[j] in multiset(tail);
        if tail[j] != x {
          assert tail[j] in sorted[1..];
        }
      }
    }
  }

  lemma {:induction false} SortedIsSorted(s: seq<Text>)
    ensures Ascending(Sorted(s)) && multiset(Sorted(s)) == multiset(s)
  {
    if s != [] {
      SortedIsSorted(s[..|s| - 1]);
      InsertedIsSorted(s[|s| - 1], Sorted(s[..|s| - 1]));
      assert s == s[..|s| - 1] + [s[|s| - 1]];
    }
  }

  /** An ascending arrangement is determined by what it arranges. */
  lemma {:induction false} AscendingIsUnique(a: seq<Text>, b: seq<Text>)
    requires Ascending(a) && Ascending(b) && multiset(a) == multiset(b)
    ensures a == b
  {
    assert |multiset(a)| == |multiset(b)|;
    if a != [] {
      SplitFirst(a);
      SplitFirst(b);
      assert a[0] in multiset(b) && b[0] in multiset(a);
      FirstIsLeast(a, b[0]);
      FirstIsLeast(b, a[0]);
      BeforeIsTotal(a[0], b[0]);
      hide Before;
      AscendingIsUnique(a[1..], b[1..]);
    }
  }

  lemma SplitFirst(s: seq<Text>)
    requires s != []
    ensures s == [s[0]] + s[1..] && multiset(s[1..]) == multiset(s) - multiset{s[0]}
    ensures Ascending(s) ==> Ascending(s[1..])
  {
    assert s == [s[0]] + s[1..];
    assert multiset(s) == multiset{s[0]} + multiset(s[1..]);
  }

  lemma FirstIsLeast(s: seq<Text>, x: Text)
    requires Ascending(s) && x in multiset(s)
    ensures s != [] && (x == s[0] || !Before(x, s[0]))
  {
    hide Before;
  }

  /** Comparing two sorted lists compares what the lists hold. */
  lemma SortedComparesContents(a: seq<Text>, b: seq<Text>)
    ensures Sorted(a) == Sorted(b) <==> multiset(a) == multiset(b)
  {
    SortedIsSorted(a);
    SortedIsSorted(b);
    if multiset(a) == multiset(b) {
      AscendingIsUnique(Sorted(a), Sorted(b));
    }
  }

  // ----- lists without repetition

  predicate NoneTwice(texts: seq<Text>) { forall i, j :: 0 <= i < j < |texts| ==> texts[i] != texts[j] }

  lemma SortedHoldsTheSame(texts: seq<Text>)
    requires NoneTwice(texts)
    ensures NoneTwice(Sorted(texts)) && forall text :: text in Sorted(texts) <==> text in texts
  {
    SortedIsSorted(texts);
    var sorted := Sorted(texts);
    forall text ensures text in sorted <==> text in texts {
      assert text in multiset(sorted) <==> text in multiset(texts);
    }
    forall i, j | 0 <= i < j < |sorted| ensures sorted[i] != sorted[j] {
      if sorted[i] == sorted[j] {
        TwiceCounts(sorted, i, j);
        OnceCounts(texts, sorted[i]);
      }
    }
  }

  lemma TwiceCounts(sorted: seq<Text>, i: nat, j: nat)
    requires i < j < |sorted| && sorted[i] == sorted[j]
    ensures multiset(sorted)[sorted[i]] >= 2
  {
    assert sorted == sorted[..j] + ([sorted[j]] + sorted[j + 1..]);
    assert sorted[..j][i] == sorted[i];
  }

  lemma {:induction false} OnceCounts(sorted: seq<Text>, text: Text)
    requires NoneTwice(sorted)
    ensures multiset(sorted)[text] <= 1
  {
    if sorted != [] {
      OnceCounts(sorted[1..], text);
      assert sorted == [sorted[0]] + sorted[1..];
    }
  }
}
