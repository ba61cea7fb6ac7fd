/** Which texts the strict parser refuses for a repeated member name, and where it
    says that name is; every other refusal is a plain syntax error. */
module StrictJsonErrors {
  import opened CodeUnits
  import opened JsonGrammar
  import opened StrictJsonModel
  import opened StrictJsonProofs

  // ----- the front of a text, up to a name its object repeats

  datatype Front = InArray(elements: ElementsFront) | InObject(fields: FieldsFront)

  datatype ElementsFront =
    | InElement(before: Text, inner: Front)
    | PastElement(before: Text, value: Tree, after: Text, rest: ElementsFront)

  datatype FieldsFront =
    | RepeatedName(before: Text, key: seq<Piece>)
    | InValue(before: Text, key: seq<Piece>, afterKey: Text, beforeValue: Text, inner: Front)
    | PastField(before: Text, key: seq<Piece>, afterKey: Text, beforeValue: Text, value: Tree, after: Text, rest: FieldsFront)

  /** The front and, after it, a tail of any kind. */
  function FrontText(p: Front, tail: Text): Text {
    match p
    case InArray(es) => [LEFT_BRACKET] + ElementsFrontText(es, tail)
    case InObject(fs) => [LEFT_BRACE] + FieldsFrontText(fs, tail)
  }

  function ElementsFrontText(es: ElementsFront, tail: Text): Text {
    match es
    case InElement(before, inner) => before + FrontText(inner, tail)
    case PastElement(before, value, after, rest) => before + (TreeText(value) + (after + ([COMMA] + ElementsFrontText(rest, tail))))
  }

  function FieldsFrontText(fs: FieldsFront, tail: Text): Text {
    match fs
    case RepeatedName(before, key) => before + (StringText(key) + tail)
    case InValue(before, key, afterKey, beforeValue, inner) =>
      before + (StringText(key) + (afterKey + ([COLON] + (beforeValue + FrontText(inner, tail)))))
    case PastField(before, key, afterKey, beforeValue, value, after, rest) =>
      before + (StringText(key) + (afterKey + ([COLON] + (beforeValue + (TreeText(value) + (after +
        ([COMMA] + FieldsFrontText(rest, tail))))))))
  }

  /** All of it is grammatical, and only its last name repeats one of the same object. */
  predicate FrontOk(finite: Text -> bool, p: Front) {
    match p
    case InArray(es) => ElementsFrontOk(finite, es)
    case InObject(fs) => FieldsFrontOk(finite, fs, {})
  }

  predicate ElementsFrontOk(finite: Text -> bool, es: ElementsFront) {
    match es
    case InElement(before, inner) => Spaces(before) && FrontOk(finite, inner)
    case PastElement(before, value, after, rest) => Spaces(before) && TreeOk(finite, value) && Spaces(after) && ElementsFrontOk(finite, rest)
  }

  predicate FieldsFrontOk(finite: Text -> bool, fs: FieldsFront, seen: set<Text>) {
    && Spaces(fs.before) && PiecesOk(fs.key)
    && match fs
       case RepeatedName(_, key) => PiecesValue(key) in seen
       case InValue(_, key, afterKey, beforeValue, inner) =>
         PiecesValue(key) !in seen && Spaces(afterKey) && Spaces(beforeValue) && FrontOk(finite, inner)
       case PastField(_, key, afterKey, beforeValue, value, after, rest) =>
         && PiecesValue(key) !in seen && Spaces(afterKey) && Spaces(beforeValue) && TreeOk(finite, value) && Spaces(after)
         && FieldsFrontOk(finite, rest, seen + {PiecesValue(key)})
  }

  /** The JSON Pointer of the repeated name, by section 3 of RFC 6901. */
  function FrontPointer(finite: Text -> bool, p: Front, here: Text): Text
    requires FrontOk(finite, p)
  {
    match p
    case InArray(es) => ElementsFrontPointer(finite, es, here, 0)
    case InObject(fs) => FieldsFrontPointer(finite, fs, here, {})
  }

  function ElementsFrontPointer(finite: Text -> bool, es: ElementsFront, here: Text, index: nat): Text
    requires ElementsFrontOk(finite, es)
  {
    match es
    case InElement(_, inner) => FrontPointer(finite, inner, ItemPointer(here, index))
    case PastElement(_, _, _, rest) => ElementsFrontPointer(finite, rest, here, index + 1)
  }

  function FieldsFrontPointer(finite: Text -> bool, fs: FieldsFront, here: Text, seen: set<Text>): Text
    requires FieldsFrontOk(finite, fs, seen)
  {
    match fs
    case RepeatedName(_, key) => MemberPointer(here, PiecesValue(key))
    case InValue(_, key, _, _, inner) => FrontPointer(finite, inner, MemberPointer(here, PiecesValue(key)))
    case PastField(_, key, _, _, _, _, rest) => FieldsFrontPointer(finite, rest, here, seen + {PiecesValue(key)})
  }

  // ----- a repeated name is reported

  lemma FrontStartsSolid(p: Front, tail: Text)
    ensures FrontText(p, tail) != [] && FrontText(p, tail)[0] in {LEFT_BRACE, LEFT_BRACKET}
  {
  }

  /** The parse positions around an element that was read. */
  lemma SkipsPastElement(finite: Text -> bool, before: Text, value: Tree, after: Text, next: Text)
    requires Spaces(before) && TreeOk(finite, value) && Spaces(after)
    ensures var left := after + ([COMMA] + next);
            && SkipSpace(before + (TreeText(value) + left)) == TreeText(value) + left
            && !At(TreeText(value) + left, RIGHT_BRACKET)
            && EndsNumber(left) && SkipSpace(left) == [COMMA] + next
  {
    var left := after + ([COMMA] + next);
    TreeStartsSolid(finite, value);
    SkipsSpaces(before, TreeText(value) + left);
    SkipsSpaces(after, [COMMA] + next);
    assert after == [] ==> left == [COMMA] + next;
  }

  lemma {:induction false} FrontIsReported(finite: Text -> bool, here: Text, p: Front, tail: Text)
    requires FrontOk(finite, p)
    ensures ParseValue(finite, here, FrontText(p, tail)) == Err(DuplicateMember(FrontPointer(finite, p, here)))
    decreases p, 1
  {
    hide ParseElements, ParseMembers, SkipSpace, ElementsFrontText, FieldsFrontText, ElementsFrontOk, FieldsFrontOk;
    var s := FrontText(p, tail);
    match p
    case InArray(es) =>
      assert s[1..] == ElementsFrontText(es, tail);
      ElementsFrontIsReported(finite, here, es, [], tail);
    case InObject(fs) =>
      var none: map<Text, Json> := map[];
      assert none.Keys == {};
      assert s[1..] == FieldsFrontText(fs, tail);
      FieldsFrontIsReported(finite, here, fs, none, tail);
  }

  lemma {:induction false} ElementsFrontIsReported(finite: Text -> bool, here: Text, es: ElementsFront, items: seq<Json>, tail: Text)
    requires ElementsFrontOk(finite, es)
    ensures var s := SkipSpace(ElementsFrontText(es, tail));
            && !At(s, RIGHT_BRACKET)
            && ParseElements(finite, here, s, items) == Err(DuplicateMember(ElementsFrontPointer(finite, es, here, |items|)))
    decreases es, 0
  {
    hide ParseValue, SkipSpace, TreeText, TreeOk, TreeValue, FrontText, FrontOk, FrontPointer, EndsNumber;
    match es
    case InElement(before, inner) =>
      FrontStartsSolid(inner, tail);
      SkipsSpaces(before, FrontText(inner, tail));
      FrontIsReported(finite, ItemPointer(here, |items|), inner, tail);
    case PastElement(before, value, after, rest) =>
      var next := ElementsFrontText(rest, tail);
      var left := after + ([COMMA] + next);
      SkipsPastElement(finite, before, value, after, next);
      TreeIsParsed(finite, ItemPointer(here, |items|), value, left);
      assert ([COMMA] + next)[1..] == next;
      ElementsFrontIsReported(finite, here, rest, items + [TreeValue(finite, value)], tail);
  }

  /** The parse positions from a name that was read to its value. */
  lemma SkipsToValue(before: Text, key: seq<Piece>, afterKey: Text, beforeValue: Text, next: Text)
    requires Spaces(before) && PiecesOk(key) && Spaces(afterKey) && Spaces(beforeValue) && next != [] && !IsSpace(next[0])
    ensures var r2 := [COLON] + (beforeValue + next);
            && SkipSpace(before + (StringText(key) + (afterKey + r2))) == StringText(key) + (afterKey + r2)
            && SkipSpace(afterKey + r2) == r2 && r2[1..] == beforeValue + next && SkipSpace(beforeValue + next) == next
  {
    hide PiecesText, SkipSpace;
    var r2 := [COLON] + (beforeValue + next);
    SkipsSpaces(before, StringText(key) + (afterKey + r2));
    SkipsSpaces(afterKey, r2);
    SkipsSpaces(beforeValue, next);
  }

  lemma {:induction false} FieldsFrontIsReported(finite: Text -> bool, here: Text, fs: FieldsFront, members: map<Text, Json>, tail: Text)
    requires FieldsFrontOk(finite, fs, members.Keys)
    ensures var s := SkipSpace(FieldsFrontText(fs, tail));
            && !At(s, RIGHT_BRACE)
            && ParseMembers(finite, here, s, members) == Err(DuplicateMember(FieldsFrontPointer(finite, fs, here, members.Keys)))
    decreases fs, 0
  {
    hide ParseValue, ParseString, SkipSpace, TreeText, TreeOk, TreeValue, FrontText, FrontOk, FrontPointer, EndsNumber, PiecesValue, StringText,
         Spaces, PiecesOk;
    match fs
    case RepeatedName(before, key) =>
      SkipsToName(before, key, tail);
      StringIsParsed(key, tail);
    case InValue(before, key, afterKey, beforeValue, inner) =>
      var next := FrontText(inner, tail);
      FrontStartsSolid(inner, tail);
      SkipsToValue(before, key, afterKey, beforeValue, next);
      StringIsParsed(key, afterKey + ([COLON] + (beforeValue + next)));
      FrontIsReported(finite, MemberPointer(here, PiecesValue(key)), inner, tail);
    case PastField(before, key, afterKey, beforeValue, value, after, rest) =>
      var next := FieldsFrontText(rest, tail);
      var left := after + ([COMMA] + next);
      SkipsPastElement(finite, [], value, after, next);
      TreeStartsSolid(finite, value);
      StartsTheRest(TreeText(value), left);
      SkipsToValue(before, key, afterKey, beforeValue, TreeText(value) + left);
      StringIsParsed(key, afterKey + ([COLON] + (beforeValue + (TreeText(value) + left))));
      TreeIsParsed(finite, MemberPointer(here, PiecesValue(key)), value, left);
      assert ([COMMA] + next)[1..] == next;
      var grown := members[PiecesValue(key) := TreeValue(finite, value)];
      assert grown.Keys == members.Keys + {PiecesValue(key)};
      FieldsFrontIsReported(finite, here, rest, grown, tail);
  }

  lemma StartsTheRest(a: Text, b: Text)
    requires a != []
    ensures a + b != [] && (a + b)[0] == a[0]
  {
  }

  lemma SkipsToName(before: Text, key: seq<Piece>, tail: Text)
    requires Spaces(before)
    ensures SkipSpace(before + (StringText(key) + tail)) == StringText(key) + tail
  {
    hide PiecesText, SkipSpace;
    SkipsSpaces(before, StringText(key) + tail);
  }

  // ----- and nothing else is

  predicate ReportsDuplicate<T>(parsed: Parse<T>) { parsed.Err? && parsed.error.DuplicateMember? }

  lemma StringsReportNone(s: Text)
    requires At(s, QUOTE)
    ensures !ReportsDuplicate(ParseString(s))
  {
  }

  lemma {:induction false} ReportedIsFront(finite: Text -> bool, here: Text, s: Text) returns (p: Front, tail: Text)
    requires ReportsDuplicate(ParseValue(finite, here, s))
    ensures FrontOk(finite, p) && s == FrontText(p, tail)
    ensures ParseValue(finite, here, s) == Err(DuplicateMember(FrontPointer(finite, p, here)))
    decreases |s|, 2
  {
    hide ParseElements, ParseMembers, SkipSpace, ParseString, NumberLength, ElementsFrontText, FieldsFrontText, ElementsFrontOk, FieldsFrontOk;
    if At(s, LEFT_BRACE) {
      var none: map<Text, Json> := map[];
      assert none.Keys == {};
      assert s == [LEFT_BRACE] + s[1..];
      var fs, left := ReportedIsFields(finite, here, s[1..], none);
      p, tail := InObject(fs), left;
    } else if At(s, LEFT_BRACKET) {
      assert s == [LEFT_BRACKET] + s[1..];
      var es, left := ReportedIsElements(finite, here, s[1..], []);
      p, tail := InArray(es), left;
    } else if At(s, QUOTE) {
      StringsReportNone(s);
    }
  }

  lemma {:induction false} ReportedIsElements(finite: Text -> bool, here: Text, s: Text, items: seq<Json>)
    returns (es: ElementsFront, tail: Text)
    requires ReportsDuplicate(ParseElements(finite, here, SkipSpace(s), items))
    ensures ElementsFrontOk(finite, es) && s == ElementsFrontText(es, tail)
    ensures ParseElements(finite, here, SkipSpace(s), items) == Err(DuplicateMember(ElementsFrontPointer(finite, es, here, |items|)))
    decreases |s|, 3
  {
    hide ParseValue, SkipSpace, TreeText, TreeOk, TreeValue, FrontText, FrontOk, FrontPointer;
    var before := SkippedAreSpaces(s);
    var q, at := SkipSpace(s), ItemPointer(here, |items|);
    if ParseValue(finite, at, q).Err? {
      var inner, left := ReportedIsFront(finite, at, q);
      es, tail := InElement(before, inner), left;
    } else {
      var value := ParsedIsTree(finite, at, q);
      var r1 := ParseValue(finite, at, q).rest;
      var after := SkippedAreSpaces(r1);
      var r2 := SkipSpace(r1);
      assert r2 == [COMMA] + r2[1..];
      var rest, left := ReportedIsElements(finite, here, r2[1..], items + [ParseValue(finite, at, q).value]);
      es, tail := PastElement(before, value, after, rest), left;
    }
  }

  lemma {:induction false} ReportedIsFields(finite: Text -> bool, here: Text, s: Text, members: map<Text, Json>)
    returns (fs: FieldsFront, tail: Text)
    requires ReportsDuplicate(ParseMembers(finite, here, SkipSpace(s), members))
    ensures FieldsFrontOk(finite, fs, members.Keys) && s == FieldsFrontText(fs, tail)
    ensures ParseMembers(finite, here, SkipSpace(s), members) == Err(DuplicateMember(FieldsFrontPointer(finite, fs, here, members.Keys)))
    decreases |s|, 0
  {
    hide ParseValue, ParseString, SkipSpace, TreeText, TreeOk, TreeValue, FrontText, FrontOk, FrontPointer, StringText, Spaces, PiecesOk, PiecesValue;
    var before := SkippedAreSpaces(s);
    var q := SkipSpace(s);
    StringsReportNone(q);
    var key := ParsedIsString(q);
    var name, r1 := ParseString(q).value, ParseString(q).rest;
    if name in members {
      fs, tail := RepeatedName(before, key), r1;
    } else {
      var afterKey := SkippedAreSpaces(r1);
      var r2 := SkipSpace(r1);
      assert r2 == [COLON] + r2[1..];
      var beforeValue := SkippedAreSpaces(r2[1..]);
      var r3, at := SkipSpace(r2[1..]), MemberPointer(here, name);
      if ParseValue(finite, at, r3).Err? {
        var inner, left := ReportedIsFront(finite, at, r3);
        fs, tail := InValue(before, key, afterKey, beforeValue, inner), left;
      } else {
        var value := ParsedIsTree(finite, at, r3);
        var r4 := ParseValue(finite, at, r3).rest;
        var after := SkippedAreSpaces(r4);
        var r5 := SkipSpace(r4);
        assert r5 == [COMMA] + r5[1..];
        var grown := members[name := ParseValue(finite, at, r3).value];
        assert grown.Keys == members.Keys + {name};
        var rest, left := ReportedIsFields(finite, here, r5[1..], grown);
        fs, tail := PastField(before, key, afterKey, beforeValue, value, after, rest), left;
      }
    }
  }

  // ----- the three outcomes

  /** A text that begins like a JSON text until an object repeats the name at `pointer`. */
  ghost predicate Repeats(finite: Text -> bool, text: Text, before: Text, p: Front, tail: Text, pointer: Text) {
    Spaces(before) && FrontOk(finite, p) && text == before + FrontText(p, tail) && FrontPointer(finite, p, []) == pointer
  }

  lemma RepeatedNameIsReported(finite: Text -> bool, text: Text, before: Text, p: Front, tail: Text, pointer: Text)
    requires Repeats(finite, text, before, p, tail, pointer)
    ensures ParseText(finite, text) == Thrown(DuplicateMember(pointer))
  {
    hide FrontText, FrontOk;
    FrontStartsSolid(p, tail);
    SkipsSpaces(before, FrontText(p, tail));
    FrontIsReported(finite, [], p, tail);
  }

  lemma ReportedNameIsRepeated(finite: Text -> bool, text: Text, pointer: Text) returns (before: Text, p: Front, tail: Text)
    requires ParseText(finite, text) == Thrown(DuplicateMember(pointer))
    ensures Repeats(finite, text, before, p, tail, pointer)
  {
    hide FrontText, FrontOk;
    before := SkippedAreSpaces(text);
    p, tail := ReportedIsFront(finite, [], SkipSpace(text));
  }

  ghost predicate IsSpelled(finite: Text -> bool, text: Text) {
    exists before: Text, t: Tree, after: Text :: Spells(finite, text, before, t, after)
  }

  ghost predicate RepeatsAt(finite: Text -> bool, text: Text, pointer: Text) {
    exists before: Text, p: Front, tail: Text :: Repeats(finite, text, before, p, tail, pointer)
  }

  lemma DuplicateExactly(finite: Text -> bool, text: Text, pointer: Text)
    ensures ParseText(finite, text) == Thrown(DuplicateMember(pointer)) <==> RepeatsAt(finite, text, pointer)
  {
    hide Repeats, ParseText;
    if RepeatsAt(finite, text, pointer) {
      var before: Text, p: Front, tail: Text :| Repeats(finite, text, before, p, tail, pointer);
      RepeatedNameIsReported(finite, text, before, p, tail, pointer);
    }
    if ParseText(finite, text) == Thrown(DuplicateMember(pointer)) {
      var before, p, tail := ReportedNameIsRepeated(finite, text, pointer);
    }
  }

  lemma ValueExactly(finite: Text -> bool, text: Text)
    ensures ParseText(finite, text).Value? <==> IsSpelled(finite, text)
  {
    hide Spells, ParseText;
    if IsSpelled(finite, text) {
      var before: Text, t: Tree, after: Text :| Spells(finite, text, before, t, after);
      AcceptsTheGrammar(finite, text, before, t, after);
    }
    if ParseText(finite, text).Value? {
      var before, t, after := AcceptsOnlyTheGrammar(finite, text);
    }
  }

  /** The grammar alone decides the outcome: a value for a text it spells, the pointer
      of the first repeated name for one that is grammatical up to that name, and the
      plain error for every other text. */
  lemma GrammarDecides(finite: Text -> bool, text: Text)
    ensures ParseText(finite, text).Value? <==> IsSpelled(finite, text)
    ensures forall pointer: Text :: RepeatsAt(finite, text, pointer) <==> ParseText(finite, text) == Thrown(DuplicateMember(pointer))
    ensures ParseText(finite, text) == Thrown(InvalidSchema) <==>
              !IsSpelled(finite, text) && forall pointer: Text :: !RepeatsAt(finite, text, pointer)
  {
    hide ParseText, IsSpelled, RepeatsAt;
    ValueExactly(finite, text);
    forall pointer: Text ensures RepeatsAt(finite, text, pointer) <==> ParseText(finite, text) == Thrown(DuplicateMember(pointer)) {
      DuplicateExactly(finite, text, pointer);
    }
    match ParseText(finite, text)
    case Value(_) =>
    case Thrown(InvalidSchema) =>
    case Thrown(DuplicateMember(pointer)) => assert RepeatsAt(finite, text, pointer);
  }
}
