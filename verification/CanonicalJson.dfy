/** The sorted-key printer, and the proof that the strict parser inverts it. */
module CanonicalJson {
  import opened CodeUnits
  import opened JsonGrammar
  import opened StrictJsonModel
  import opened StrictJsonProofs

  // ----- names in code unit order

  ghost predicate IsFirst(k: Text, ks: set<Text>) {
    k in ks && forall j :: j in ks ==> j == k || Before(k, j)
  }

  lemma {:induction false} HasFirst(ks: set<Text>) returns (k: Text)
    requires ks != {}
    ensures IsFirst(k, ks)
  {
    k :| k in ks;
    if ks - {k} != {} {
      var first := HasFirst(ks - {k});
      BeforeIsTotal(k, first);
      if Before(k, first) {
        forall j | j in ks ensures j == k || Before(k, j) {
          if j != k && j != first { BeforeIsTransitive(k, first, j); }
        }
      } else {
        k := first;
      }
    } else {
      assert ks == {k};
    }
  }

  ghost function SortedNames(ks: set<Text>): (names: seq<Text>)
    ensures forall k :: k in names <==> k in ks
    ensures forall i, j :: 0 <= i < j < |names| ==> names[i] != names[j] && Before(names[i], names[j])
    decreases |ks|
  {
    if ks == {} then []
    else
      assert exists k :: IsFirst(k, ks) by { var k := HasFirst(ks); }
      var k :| IsFirst(k, ks);
      [k] + SortedNames(ks - {k})
  }

  // ----- printing

  function HexDigit(n: int): (u: Unit)
    requires 0 <= n < 16
    ensures IsHex(u) && HexValue(u) == n
  {
    if n < 10 then 48 + n else 87 + n
  }

  lemma HexPieceDenotes(h3: Unit, h2: Unit, h1: Unit, h0: Unit)
    requires IsHex(h3) && IsHex(h2) && IsHex(h1) && IsHex(h0)
    ensures PieceOk(Hex(h3, h2, h1, h0))
    ensures PieceValue(Hex(h3, h2, h1, h0)) == 4096 * HexValue(h3) + 256 * HexValue(h2) + 16 * HexValue(h1) + HexValue(h0)
  {
    hide HexValue, IsHex;
  }

  function HexPiece(u: Unit): (p: Piece)
    ensures PieceOk(p) && PieceValue(p) == u
  {
    var r3 := u % 4096;
    var r2 := r3 % 256;
    HexPieceDenotes(HexDigit(u / 4096), HexDigit(r3 / 256), HexDigit(r2 / 16), HexDigit(r2 % 16));
    Hex(HexDigit(u / 4096), HexDigit(r3 / 256), HexDigit(r2 / 16), HexDigit(r2 % 16))
  }

  function QuotedUnit(u: Unit): (p: Piece)
    ensures PieceOk(p) && PieceValue(p) == u
  {
    if u == QUOTE || u == BACKSLASH then Escape(u)
    else if u == 0x08 then Escape(98)
    else if u == 0x09 then Escape(116)
    else if u == 0x0A then Escape(110)
    else if u == 0x0C then Escape(102)
    else if u == 0x0D then Escape(114)
    else if u < 0x20 || IsLead(u) || IsTrail(u) then HexPiece(u)
    else Plain(u)
  }

  /** How the platform quotes a string: surrogate pairs stay, lone surrogates do not. */
  function Quoted(s: Text): (ps: seq<Piece>)
    ensures PiecesOk(ps) && PiecesValue(ps) == s
  {
    if s == [] then []
    else if |s| >= 2 && IsLead(s[0]) && IsTrail(s[1]) then
      var ps := [Plain(s[0])] + ([Plain(s[1])] + Quoted(s[2..]));
      assert ps[1..] == [Plain(s[1])] + Quoted(s[2..]);
      assert ps[1..][1..] == Quoted(s[2..]);
      ps
    else
      var ps := [QuotedUnit(s[0])] + Quoted(s[1..]);
      assert ps[1..] == Quoted(s[1..]);
      ps
  }

  /** Values whose numbers are finite number lexemes. */
  ghost predicate IsLexeme(finite: Text -> bool, s: Text) {
    finite(s) && exists n :: NumberOk(n) && NumberText(n) == s
  }

  ghost predicate Printable(finite: Text -> bool, v: Json) {
    match v
    case JNumber(s) => IsLexeme(finite, s)
    case JArray(items) => forall i :: 0 <= i < |items| ==> Printable(finite, items[i])
    case JObject(members) => forall k :: k in members ==> Printable(finite, members[k])
    case _ => true
  }

  ghost function Print(v: Json): Text
    decreases v, 1, 0
  {
    match v
    case JNull => NULL_TEXT
    case JBool(b) => if b then TRUE_TEXT else FALSE_TEXT
    case JNumber(s) => s
    case JString(s) => StringText(Quoted(s))
    case JArray(items) => [LEFT_BRACKET] + (PrintItems(v, 0) + [RIGHT_BRACKET])
    case JObject(members) => [LEFT_BRACE] + (PrintMembers(v, SortedNames(members.Keys)) + [RIGHT_BRACE])
  }

  /** The items from `i` on, separated by commas. */
  ghost function PrintItems(v: Json, i: nat): Text
    requires v.JArray? && i <= |v.items|
    decreases v, 0, |v.items| - i
  {
    if i == |v.items| then []
    else Print(v.items[i]) + ((if i + 1 == |v.items| then [] else [COMMA]) + PrintItems(v, i + 1))
  }

  ghost function PrintMembers(v: Json, names: seq<Text>): Text
    requires v.JObject? && forall k :: k in names ==> k in v.members
    decreases v, 0, |names|
  {
    if names == [] then []
    else
      StringText(Quoted(names[0])) + ([COLON] + (Print(v.members[names[0]]) +
        ((if |names| == 1 then [] else [COMMA]) + PrintMembers(v, names[1..]))))
  }

  // ----- the printed text as a tree without whitespace

  ghost function TreeOf(finite: Text -> bool, v: Json): (t: Tree)
    requires Printable(finite, v)
    decreases v, 1, 0
  {
    match v
    case JNull => TNull
    case JBool(b) => TBool(b)
    case JNumber(s) => var n :| NumberOk(n) && NumberText(n) == s; TNumber(n)
    case JString(s) => TString(Quoted(s))
    case JArray(items) => TArray([], ElementsOf(finite, v, 0))
    case JObject(members) => TObject([], FieldsOf(finite, v, SortedNames(members.Keys)))
  }

  ghost function ElementsOf(finite: Text -> bool, v: Json, i: nat): Elements
    requires Printable(finite, v) && v.JArray? && i <= |v.items|
    decreases v, 0, |v.items| - i
  {
    if i == |v.items| then NoElements else Element([], TreeOf(finite, v.items[i]), [], ElementsOf(finite, v, i + 1))
  }

  ghost function FieldsOf(finite: Text -> bool, v: Json, names: seq<Text>): Fields
    requires Printable(finite, v) && v.JObject? && forall k :: k in names ==> k in v.members
    decreases v, 0, |names|
  {
    if names == [] then NoFields
    else Field([], Quoted(names[0]), [], [], TreeOf(finite, v.members[names[0]]), [], FieldsOf(finite, v, names[1..]))
  }

  lemma {:induction false} PrintedIsTree(finite: Text -> bool, v: Json)
    requires Printable(finite, v)
    ensures TreeText(TreeOf(finite, v)) == Print(v)
    decreases v, 1, 0
  {
    match v
    case JArray(items) =>
      hide TreeText, ElementsText, ElementsOf, PrintItems, Printable;
      PrintedAreElements(finite, v, 0);
      ArrayText(ElementsOf(finite, v, 0));
    case JObject(members) =>
      hide TreeText, FieldsText, FieldsOf, PrintMembers, Printable;
      var names := SortedNames(members.Keys);
      PrintedAreFields(finite, v, names);
      ObjectText(FieldsOf(finite, v, names));
    case _ => hide NumberOk, NumberText, Quoted;
  }

  lemma ArrayText(es: Elements)
    ensures TreeText(TArray([], es)) == [LEFT_BRACKET] + ElementsText(es)
  {
    assert [] + [RIGHT_BRACKET] == [RIGHT_BRACKET];
  }

  lemma ObjectText(fs: Fields)
    ensures TreeText(TObject([], fs)) == [LEFT_BRACE] + FieldsText(fs)
  {
    assert [] + [RIGHT_BRACE] == [RIGHT_BRACE];
  }

  lemma {:induction false} PrintedAreElements(finite: Text -> bool, v: Json, i: nat)
    requires Printable(finite, v) && v.JArray? && i <= |v.items|
    ensures ElementsText(ElementsOf(finite, v, i)) == PrintItems(v, i) + [RIGHT_BRACKET]
    decreases v, 0, |v.items| - i
  {
    hide TreeText, TreeOf, Print, Printable;
    if i < |v.items| {
      var value, more := Print(v.items[i]), (if i + 1 == |v.items| then [] else [COMMA]) + PrintItems(v, i + 1);
      PrintedItemIsTree(finite, v, i);
      PrintedAreElements(finite, v, i + 1);
      var es := ElementsOf(finite, v, i);
      var end := if es.rest.NoElements? then [RIGHT_BRACKET] else [COMMA] + ElementsText(es.rest);
      ItemWithoutPads(value, end);
      Prefixed(value, more, [RIGHT_BRACKET]);
      if i + 1 < |v.items| { Prefixed([COMMA], PrintItems(v, i + 1), [RIGHT_BRACKET]); }
      assert end == more + [RIGHT_BRACKET];
    }
  }

  lemma PrintedItemIsTree(finite: Text -> bool, v: Json, i: nat)
    requires Printable(finite, v) && v.JArray? && i < |v.items|
    ensures Printable(finite, v.items[i])
    ensures TreeText(TreeOf(finite, v.items[i])) == Print(v.items[i])
    decreases v, 0, 0
  {
    PrintedIsTree(finite, v.items[i]);
  }

  lemma ItemWithoutPads(value: Text, end: Text)
    ensures [] + (value + ([] + end)) == value + end
  {
    assert [] + end == end;
    assert [] + (value + end) == value + end;
  }

  lemma WithoutPads(key: Text, value: Text, end: Text)
    ensures [] + (key + ([] + ([COLON] + ([] + (value + ([] + end)))))) == key + ([COLON] + (value + end))
  {
    assert [] + end == end;
    assert [] + (value + end) == value + end;
    assert [] + ([COLON] + (value + end)) == [COLON] + (value + end);
  }

  lemma Reassociate(a: Text, b: Text, c: Text, d: Text, e: Text)
    ensures a + (b + (c + d)) + e == a + (b + (c + (d + e)))
  {
    assert c + d + e == c + (d + e);
    assert b + (c + d) + e == b + (c + d + e);
  }

  lemma {:induction false} PrintedAreFields(finite: Text -> bool, v: Json, names: seq<Text>)
    requires Printable(finite, v) && v.JObject? && forall k :: k in names ==> k in v.members
    ensures FieldsText(FieldsOf(finite, v, names)) == PrintMembers(v, names) + [RIGHT_BRACE]
    decreases v, 0, |names|
  {
    hide TreeText, TreeOf, Print, StringText, Quoted, Printable;
    if names != [] {
      var key, value := StringText(Quoted(names[0])), Print(v.members[names[0]]);
      PrintedMemberIsTree(finite, v, names[0]);
      PrintedAreFields(finite, v, names[1..]);
      var more := (if |names| == 1 then [] else [COMMA]) + PrintMembers(v, names[1..]);
      var fs := FieldsOf(finite, v, names);
      var end := if fs.rest.NoFields? then [RIGHT_BRACE] else [COMMA] + FieldsText(fs.rest);
      WithoutPads(key, value, end);
      Reassociate(key, [COLON], value, more, [RIGHT_BRACE]);
      assert end == more + [RIGHT_BRACE];
    }
  }

  lemma PrintedMemberIsTree(finite: Text -> bool, v: Json, name: Text)
    requires Printable(finite, v) && v.JObject? && name in v.members
    ensures Printable(finite, v.members[name])
    ensures TreeText(TreeOf(finite, v.members[name])) == Print(v.members[name])
    decreases v, 0, 0
  {
    PrintedIsTree(finite, v.members[name]);
  }

  lemma {:induction false} TreeOfDenotes(finite: Text -> bool, v: Json)
    requires Printable(finite, v)
    ensures TreeOk(finite, TreeOf(finite, v)) && TreeValue(finite, TreeOf(finite, v)) == v
    decreases v, 1, 0
  {
    match v
    case JArray(items) => ElementsOfDenote(finite, v, 0);
    case JObject(members) => ObjectDenotes(finite, v);
    case _ =>
  }

  lemma {:induction false} ObjectDenotes(finite: Text -> bool, v: Json)
    requires Printable(finite, v) && v.JObject?
    ensures TreeOk(finite, TreeOf(finite, v)) && TreeValue(finite, TreeOf(finite, v)) == v
    decreases v, 0, |v.members| + 1
  {
    hide Printable, FieldsOf, FieldsOk, FieldsValue, Quoted, PiecesOk, PiecesValue, Adds;
    var names := SortedNames(v.members.Keys);
    var none: map<Text, Json> := map[];
    assert none.Keys == {};
    SortedNamesLength(v.members.Keys);
    FieldsOfDenote(finite, v, names, none);
    AddsEverything(FieldsValue(finite, FieldsOf(finite, v, names), none), names, v.members);
  }

  lemma {:induction false} SortedNamesLength(ks: set<Text>)
    ensures |SortedNames(ks)| == |ks|
    decreases |ks|
  {
    if ks != {} {
      assert exists k :: IsFirst(k, ks) by { var k := HasFirst(ks); }
      var k := SortedNames(ks)[0];
      assert k in ks;
      assert SortedNames(ks) == [k] + SortedNames(ks - {k});
      SortedNamesLength(ks - {k});
    }
  }

  lemma {:induction false} ElementsOfDenote(finite: Text -> bool, v: Json, i: nat)
    requires Printable(finite, v) && v.JArray? && i <= |v.items|
    ensures ElementsOk(finite, ElementsOf(finite, v, i))
    ensures ElementsValue(finite, ElementsOf(finite, v, i)) == v.items[i..]
    decreases v, 0, |v.items| - i
  {
    if i < |v.items| {
      TreeOfDenotes(finite, v.items[i]);
      ElementsOfDenote(finite, v, i + 1);
    }
  }

  lemma MemberDenotes(finite: Text -> bool, v: Json, name: Text)
    requires Printable(finite, v) && v.JObject? && name in v.members
    ensures Printable(finite, v.members[name])
    ensures TreeOk(finite, TreeOf(finite, v.members[name]))
    ensures TreeValue(finite, TreeOf(finite, v.members[name])) == v.members[name]
    decreases v, 0, 0
  {
    TreeOfDenotes(finite, v.members[name]);
  }

  lemma {:induction false} FieldsOfDenote(finite: Text -> bool, v: Json, names: seq<Text>, done: map<Text, Json>)
    requires Printable(finite, v) && v.JObject? && forall k :: k in names ==> k in v.members && k !in done
    requires forall i, j :: 0 <= i < j < |names| ==> names[i] != names[j]
    ensures FieldsOk(finite, FieldsOf(finite, v, names), done.Keys)
    ensures Adds(FieldsValue(finite, FieldsOf(finite, v, names), done), done, names, v.members)
    decreases v, 0, |names|
  {
    hide Printable, TreeOf, TreeOk, TreeValue, Quoted, PiecesOk, PiecesValue, Adds;
    if names == [] {
      AddsNothing(done, v.members);
    } else {
      var k := names[0];
      MemberDenotes(finite, v, k);
      var more := done[k := v.members[k]];
      assert more.Keys == done.Keys + {k};
      FieldsOfDenote(finite, v, names[1..], more);
      AddsFirst(FieldsValue(finite, FieldsOf(finite, v, names[1..]), more), done, names, v.members);
    }
  }

  /** `all` is `done` with the entries of `source` for `names`. */
  ghost predicate Adds(all: map<Text, Json>, done: map<Text, Json>, names: seq<Text>, source: map<Text, Json>) {
    && (forall k :: k in all <==> k in done || k in names)
    && (forall k :: k in names ==> k in source && k in all && all[k] == source[k])
    && (forall k :: k in done && k !in names ==> k in all && all[k] == done[k])
  }

  lemma AddsNothing(done: map<Text, Json>, source: map<Text, Json>)
    ensures Adds(done, done, [], source)
  {
  }

  lemma AddsFirst(all: map<Text, Json>, done: map<Text, Json>, names: seq<Text>, source: map<Text, Json>)
    requires names != [] && names[0] in source && names[0] !in names[1..]
    requires Adds(all, done[names[0] := source[names[0]]], names[1..], source)
    ensures Adds(all, done, names, source)
  {
    assert names == [names[0]] + names[1..];
  }

  lemma AddsEverything(all: map<Text, Json>, names: seq<Text>, source: map<Text, Json>)
    requires Adds(all, map[], names, source) && forall k :: k in names <==> k in source
    ensures all == source
  {
  }

  /** Parsing the print of a value returns that value. */
  lemma ParsingInvertsPrinting(finite: Text -> bool, v: Json)
    requires Printable(finite, v)
    ensures ParseText(finite, Print(v)) == Value(v)
  {
    var t := TreeOf(finite, v);
    PrintedIsTree(finite, v);
    TreeOfDenotes(finite, v);
    assert Print(v) == [] + (TreeText(t) + []);
    AcceptsTheGrammar(finite, Print(v), [], t, []);
  }

  /** So the print identifies the value. */
  lemma PrintingIsInjective(finite: Text -> bool, v: Json, w: Json)
    requires Printable(finite, v) && Printable(finite, w) && Print(v) == Print(w)
    ensures v == w
  {
    ParsingInvertsPrinting(finite, v);
    ParsingInvertsPrinting(finite, w);
  }

  // ----- canonicalisation of arbitrary texts

  lemma {:induction false} DenotedIsPrintable(finite: Text -> bool, t: Tree)
    requires TreeOk(finite, t)
    ensures Printable(finite, TreeValue(finite, t))
    decreases t
  {
    match t
    case TArray(_, es) => ElementsArePrintable(finite, es);
    case TObject(_, fs) =>
      var none: map<Text, Json> := map[];
      assert none.Keys == {};
      FieldsArePrintable(finite, fs, none);
    case _ =>
  }

  lemma {:induction false} ElementsArePrintable(finite: Text -> bool, es: Elements)
    requires ElementsOk(finite, es)
    ensures forall i :: 0 <= i < |ElementsValue(finite, es)| ==> Printable(finite, ElementsValue(finite, es)[i])
    decreases es
  {
    if es.Element? {
      DenotedIsPrintable(finite, es.value);
      ElementsArePrintable(finite, es.rest);
    }
  }

  lemma {:induction false} FieldsArePrintable(finite: Text -> bool, fs: Fields, members: map<Text, Json>)
    requires FieldsOk(finite, fs, members.Keys)
    requires forall k :: k in members ==> Printable(finite, members[k])
    ensures forall k :: k in FieldsValue(finite, fs, members) ==> Printable(finite, FieldsValue(finite, fs, members)[k])
    decreases fs
  {
    if fs.Field? {
      DenotedIsPrintable(finite, fs.value);
      var grown := members[PiecesValue(fs.key) := TreeValue(finite, fs.value)];
      assert grown.Keys == members.Keys + {PiecesValue(fs.key)};
      FieldsArePrintable(finite, fs.rest, grown);
    }
  }

  /** Rewriting an accepted text in printed form changes nothing a reader can see,
      and two accepted texts get the same form exactly when they denote one value. */
  lemma CanonicalFormIsFaithful(finite: Text -> bool, text: Text, other: Text)
    requires ParseText(finite, text).Value? && ParseText(finite, other).Value?
    ensures ParseText(finite, Print(ParseText(finite, text).value)) == ParseText(finite, text)
    ensures Print(ParseText(finite, text).value) == Print(ParseText(finite, other).value)
            <==> ParseText(finite, text) == ParseText(finite, other)
  {
    var b0, t0, a0 := AcceptsOnlyTheGrammar(finite, text);
    var b1, t1, a1 := AcceptsOnlyTheGrammar(finite, other);
    DenotedIsPrintable(finite, t0);
    DenotedIsPrintable(finite, t1);
    ParsingInvertsPrinting(finite, TreeValue(finite, t0));
    ParsingInvertsPrinting(finite, TreeValue(finite, t1));
  }
}
