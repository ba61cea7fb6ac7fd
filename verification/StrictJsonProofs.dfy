/** The strict parser accepts exactly the JSON texts whose numbers are finite and
    whose objects repeat no name, and returns the value each denotes. */
module StrictJsonProofs {
  import opened CodeUnits
  import opened JsonGrammar
  import opened StrictJsonModel

  // ----- whitespace

  lemma {:induction false} SkipsSpaces(spaces: Text, rest: Text)
    requires Spaces(spaces) && (rest == [] || !IsSpace(rest[0]))
    ensures SkipSpace(spaces + rest) == rest
  {
    if spaces == [] {
      assert spaces + rest == rest;
    } else {
      assert (spaces + rest)[1..] == spaces[1..] + rest;
      SkipsSpaces(spaces[1..], rest);
    }
  }

  lemma {:induction false} SkippedAreSpaces(s: Text) returns (spaces: Text)
    ensures Spaces(spaces) && s == spaces + SkipSpace(s)
  {
    if s != [] && IsSpace(s[0]) {
      var tail := SkippedAreSpaces(s[1..]);
      spaces := [s[0]] + tail;
      assert s == [s[0]] + s[1..];
    } else {
      spaces := [];
    }
  }

  // ----- numbers

  predicate AllDigits(s: Text) { forall i :: 0 <= i < |s| ==> IsDigit(s[i]) }

  lemma {:induction false} CountsDigits(digits: Text, rest: Text)
    requires AllDigits(digits) && (rest == [] || !IsDigit(rest[0]))
    ensures DigitCount(digits + rest) == |digits|
  {
    if digits == [] {
      assert digits + rest == rest;
    } else {
      assert (digits + rest)[1..] == digits[1..] + rest;
      CountsDigits(digits[1..], rest);
    }
  }

  /** A text that cannot prolong a number. */
  predicate EndsNumber(rest: Text) {
    rest == [] || (!IsDigit(rest[0]) && rest[0] != DOT && rest[0] != 101 && rest[0] != 69)
  }

  lemma SignIsMatched(sign: Text, digits: Text, rest: Text)
    requires sign in {[], [PLUS], [MINUS]} && Digits(digits) && (rest == [] || !IsDigit(rest[0]))
    ensures var tail := sign + (digits + rest);
            SignLength(tail) == |sign| && DigitCount(tail[|sign|..]) == |digits|
  {
    var tail := sign + (digits + rest);
    assert tail[|sign|..] == digits + rest;
    CountsDigits(digits, rest);
  }

  lemma MarkedExpIsMatched(mark: Text, sign: Text, digits: Text, rest: Text)
    requires mark in {[101], [69]} && sign in {[], [PLUS], [MINUS]} && Digits(digits) && (rest == [] || !IsDigit(rest[0]))
    ensures ExpLength(mark + (sign + (digits + rest))) == |mark| + |sign| + |digits|
  {
    hide DigitCount, SignLength, Digits;
    var tail := sign + (digits + rest);
    var s := mark + tail;
    assert |mark| == 1 && |digits| > 0 by { DigitsAreSome(digits); }
    DropFront(mark, tail);
    SignIsMatched(sign, digits, rest);
    DropTwice(mark, tail, |sign|);
  }

  lemma DigitsAreSome(digits: Text)
    requires Digits(digits)
    ensures |digits| > 0
  {
  }

  lemma DropFront(front: Text, s: Text)
    ensures (front + s)[|front|..] == s
  {
  }

  lemma DropTwice(front: Text, s: Text, n: nat)
    requires n <= |s|
    ensures (front + s)[|front| + n..] == s[n..]
  {
  }

  lemma ExpParts(n: Number)
    requires NumberOk(n) && n.expDigits != []
    ensures n.expMark in {[101], [69]} && n.expSign in {[], [PLUS], [MINUS]} && Digits(n.expDigits)
  {
  }

  lemma NoExp(n: Number)
    requires NumberOk(n) && n.expDigits == []
    ensures ExpText(n) == []
  {
  }

  lemma ExpIsMatched(n: Number, rest: Text)
    requires NumberOk(n) && EndsNumber(rest)
    ensures ExpLength(ExpText(n) + rest) == |ExpText(n)|
  {
    hide DigitCount, SignLength, NumberOk, Digits;
    if n.expDigits == [] {
      NoExp(n);
      assert [] + rest == rest;
    } else {
      hide ExpLength;
      ExpParts(n);
      MarkedExpIsMatched(n.expMark, n.expSign, n.expDigits, rest);
      Prefixed(n.expMark, n.expSign + n.expDigits, rest);
      Prefixed(n.expSign, n.expDigits, rest);
    }
  }

  lemma MarkedFracIsMatched(digits: Text, tail: Text)
    requires Digits(digits) && (tail == [] || !IsDigit(tail[0]))
    ensures FracLength([DOT] + (digits + tail)) == 1 + |digits|
  {
    hide DigitCount;
    var s := [DOT] + (digits + tail);
    assert s[0] == DOT && s[1..] == digits + tail;
    CountsDigits(digits, tail);
  }

  lemma FracIsMatched(n: Number, tail: Text)
    requires NumberOk(n)
    requires tail == [] || (!IsDigit(tail[0]) && tail[0] != DOT)
    ensures FracLength(FracText(n) + tail) == |FracText(n)|
  {
    hide DigitCount, Digits;
    if n.frac == [] {
      assert [] + tail == tail;
    } else {
      MarkedFracIsMatched(n.frac, tail);
      Prefixed([DOT], n.frac, tail);
    }
  }

  lemma IntIsMatched(n: Number, tail: Text)
    requires NumberOk(n)
    requires tail == [] || !IsDigit(tail[0])
    ensures IntLength(n.whole + tail) == |n.whole|
  {
    CountsDigits(n.whole, tail);
  }

  lemma FracExpIsMatched(n: Number, rest: Text)
    requires NumberOk(n) && EndsNumber(rest)
    ensures var s := FracText(n) + (ExpText(n) + rest);
            FracExpLength(s) == |FracText(n)| + |ExpText(n)| && (s == [] || !IsDigit(s[0]))
  {
    hide DigitCount, ExpLength, FracLength;
    var exp := ExpText(n) + rest;
    assert n.expDigits == [] ==> exp == rest;
    ExpIsMatched(n, rest);
    FracIsMatched(n, exp);
    assert (FracText(n) + exp)[|FracText(n)|..] == exp;
    assert n.frac == [] ==> FracText(n) + exp == exp;
  }

  lemma UnsignedIsMatched(n: Number, rest: Text)
    requires NumberOk(n) && EndsNumber(rest)
    ensures UnsignedLength(UnsignedText(n) + rest) == |UnsignedText(n)|
  {
    hide DigitCount, ExpLength, FracLength, IntLength, FracExpLength, FracText, ExpText;
    var tail := FracText(n) + (ExpText(n) + rest);
    var s := n.whole + tail;
    FracExpIsMatched(n, rest);
    IntIsMatched(n, tail);
    assert UnsignedText(n) + rest == s;
    assert s[|n.whole|..] == tail;
  }

  lemma NumberIsMatched(n: Number, rest: Text)
    requires NumberOk(n) && EndsNumber(rest)
    ensures NumberLength(NumberText(n) + rest) == |NumberText(n)|
  {
    hide UnsignedLength, FracText, ExpText;
    UnsignedIsMatched(n, rest);
    var sign := if n.minus then [MINUS] else [];
    var s := sign + (UnsignedText(n) + rest);
    assert NumberText(n) + rest == s;
    assert UnsignedText(n)[0] == n.whole[0];
    assert s[|sign|..] == UnsignedText(n) + rest;
  }

  lemma ExpIsGrammatical(s: Text) returns (mark: Text, sign: Text, digits: Text)
    ensures s[..ExpLength(s)] == mark + (sign + digits)
    ensures if digits == [] then mark == [] && sign == []
            else mark in {[101], [69]} && sign in {[], [PLUS], [MINUS]} && Digits(digits)
  {
    if ExpLength(s) == 0 {
      mark, sign, digits := [], [], [];
    } else {
      var k := SignLength(s[1..]);
      mark, sign, digits := [s[0]], s[1..1 + k], s[1 + k..ExpLength(s)];
      assert k == 1 ==> sign == [s[1]];
      assert s[..ExpLength(s)] == mark + (sign + digits);
      forall i | 0 <= i < |digits| ensures IsDigit(digits[i]) { assert digits[i] == s[1 + k..][i]; }
    }
  }

  lemma IntIsGrammatical(s: Text)
    requires IntLength(s) > 0
    ensures var whole := s[..IntLength(s)]; Digits(whole) && (whole[0] == 48 ==> |whole| == 1)
  {
  }

  lemma FracIsGrammatical(s: Text) returns (frac: Text)
    ensures frac == [] || Digits(frac)
    ensures s[..FracLength(s)] == if frac == [] then [] else [DOT] + frac
  {
    var f := FracLength(s);
    if f == 0 {
      frac := [];
    } else {
      frac := s[1..f];
      forall i | 0 <= i < |frac| ensures IsDigit(frac[i]) { assert frac[i] == s[1..][i]; }
      assert s[..f] == [s[0]] + frac;
    }
  }

  lemma TakeMore(s: Text, a: nat, b: nat)
    requires a + b <= |s|
    ensures s[..a + b] == s[..a] + s[a..][..b]
  {
  }

  lemma FracExpIsGrammatical(s: Text) returns (n: Number)
    ensures NumberOk(n.(minus := false, whole := [48]))
    ensures FracText(n) + ExpText(n) == s[..FracExpLength(s)]
  {
    hide DigitCount, ExpLength, FracLength, SignLength;
    var f := FracLength(s);
    var frac := FracIsGrammatical(s);
    var mark, sign, digits := ExpIsGrammatical(s[f..]);
    n := Number(false, [], frac, mark, sign, digits);
    TakeMore(s, f, ExpLength(s[f..]));
  }

  lemma UnsignedIsGrammatical(s: Text) returns (n: Number)
    requires UnsignedLength(s) > 0
    ensures NumberOk(n) && !n.minus && UnsignedText(n) == s[..UnsignedLength(s)]
  {
    hide FracExpLength, IntLength, FracText, ExpText;
    var w := IntLength(s);
    IntIsGrammatical(s);
    var tail := FracExpIsGrammatical(s[w..]);
    n := tail.(minus := false, whole := s[..w]);
    assert FracText(n) == FracText(tail) && ExpText(n) == ExpText(tail) by { SameParts(n, tail); }
    TakeMore(s, w, FracExpLength(s[w..]));
  }

  lemma SameParts(n: Number, m: Number)
    requires n.frac == m.frac && n.expMark == m.expMark && n.expSign == m.expSign && n.expDigits == m.expDigits
    ensures FracText(n) == FracText(m) && ExpText(n) == ExpText(m)
  {
  }

  /** What the pattern matches is a number of the grammar. */
  lemma NumberIsGrammatical(s: Text) returns (n: Number)
    requires NumberLength(s) > 0
    ensures NumberOk(n) && NumberText(n) == s[..NumberLength(s)]
  {
    hide UnsignedLength, FracText, ExpText;
    var m := if At(s, MINUS) then 1 else 0;
    var unsigned := UnsignedIsGrammatical(s[m..]);
    n := unsigned.(minus := m == 1);
    assert UnsignedText(n) == UnsignedText(unsigned) by { SameParts(n, unsigned); }
    TakeMore(s, m, UnsignedLength(s[m..]));
    assert s[..m] == if n.minus then [MINUS] else [];
  }

  // ----- strings

  /** What scanning past `count` units makes of the scan of the rest. */
  function Past(count: nat, tail: Scan): Scan {
    if tail.Unclosed? then Unclosed else Closed(count + tail.length)
  }

  lemma ScanPassesPlain(u: Unit, tail: Text)
    requires IsUnescaped(u)
    ensures ScanString([u] + tail, false) == Past(1, ScanString(tail, false))
  {
    assert ([u] + tail)[1..] == tail;
  }

  lemma ScanPassesEscape(u: Unit, tail: Text)
    ensures ScanString([BACKSLASH, u] + tail, false) == Past(2, ScanString(tail, false))
  {
    assert ([BACKSLASH, u] + tail)[1..] == [u] + tail;
    assert ([u] + tail)[1..] == tail;
  }

  lemma ScanPassesPiece(p: Piece, tail: Text)
    requires PieceOk(p)
    ensures ScanString(PieceText(p) + tail, false) == Past(|PieceText(p)|, ScanString(tail, false))
  {
    hide ScanString;
    match p
    case Plain(u) => ScanPassesPlain(u, tail);
    case Escape(e) => ScanPassesEscape(e, tail);
    case Hex(a, b, c, d) =>
      ScanPassesPlain(d, tail);
      ScanPassesPlain(c, [d] + tail);
      ScanPassesPlain(b, [c] + ([d] + tail));
      ScanPassesPlain(a, [b] + ([c] + ([d] + tail)));
      ScanPassesEscape(LOWER_U, [a] + ([b] + ([c] + ([d] + tail))));
      assert PieceText(p) + tail == [BACKSLASH, LOWER_U] + ([a] + ([b] + ([c] + ([d] + tail))));
  }

  lemma {:induction false} ScanFindsQuote(ps: seq<Piece>, rest: Text)
    requires PiecesOk(ps)
    ensures ScanString(PiecesText(ps) + ([QUOTE] + rest), false) == Closed(|PiecesText(ps)| + 1)
  {
    hide ScanString, PieceText, PieceOk;
    var tail := [QUOTE] + rest;
    if ps == [] {
      assert [] + tail == tail;
      ScanEndsAtQuote(rest);
    } else {
      ScanFindsQuote(ps[1..], rest);
      ScanPassesPiece(ps[0], PiecesText(ps[1..]) + tail);
      Prefixed(PieceText(ps[0]), PiecesText(ps[1..]), tail);
    }
  }

  lemma ScanEndsAtQuote(rest: Text)
    ensures ScanString([QUOTE] + rest, false) == Closed(1)
  {
  }

  lemma DecodesPiece(p: Piece, tail: Text)
    requires PieceOk(p)
    ensures DecodeBody(PieceText(p) + tail) == Prepend(PieceValue(p), DecodeBody(tail))
  {
    var s := PieceText(p) + tail;
    assert s[|PieceText(p)|..] == tail;
  }

  lemma {:induction false} DecodesPieces(ps: seq<Piece>)
    requires PiecesOk(ps)
    ensures DecodeBody(PiecesText(ps)) == Units(PiecesValue(ps))
  {
    if ps != [] {
      DecodesPieces(ps[1..]);
      DecodesPiece(ps[0], PiecesText(ps[1..]));
    }
  }

  lemma StringIsParsed(ps: seq<Piece>, rest: Text)
    requires PiecesOk(ps)
    ensures At(StringText(ps) + rest, QUOTE)
    ensures ParseString(StringText(ps) + rest) == Ok(PiecesValue(ps), rest)
  {
    hide ScanString, DecodeBody, PiecesText, PiecesValue, PiecesOk;
    QuotedParts(PiecesText(ps), rest);
    ScanFindsQuote(ps, rest);
    DecodesPieces(ps);
  }

  lemma QuotedParts(body: Text, rest: Text)
    ensures var s := [QUOTE] + (body + [QUOTE]) + rest;
            && s != [] && s[0] == QUOTE && s[1..] == body + ([QUOTE] + rest)
            && s[1..|body| + 1] == body && s[1 + (|body| + 1)..] == rest
  {
    var inner := body + [QUOTE];
    Prefixed([QUOTE], inner, rest);
    DropFront([QUOTE], inner + rest);
    Prefixed(body, [QUOTE], rest);
  }

  lemma {:induction false} DecodedIsPieces(b: Text) returns (ps: seq<Piece>)
    requires DecodeBody(b).Units?
    ensures PiecesOk(ps) && PiecesText(ps) == b && PiecesValue(ps) == DecodeBody(b).units
    decreases |b|
  {
    if b == [] {
      ps := [];
    } else {
      var p := if b[0] != BACKSLASH then Plain(b[0]) else if IsEscape(b[1]) then Escape(b[1]) else Hex(b[2], b[3], b[4], b[5]);
      var n := |PieceText(p)|;
      assert b == PieceText(p) + b[n..];
      var tail := DecodedIsPieces(b[n..]);
      ps := [p] + tail;
      assert ps[1..] == tail;
    }
  }

  lemma {:induction false} ScanStopsAtQuote(s: Text, escaped: bool)
    requires ScanString(s, escaped).Closed?
    ensures s[ScanString(s, escaped).length - 1] == QUOTE
  {
    if !escaped && s[0] == QUOTE {
    } else {
      ScanStopsAtQuote(s[1..], !escaped && s[0] == BACKSLASH);
    }
  }

  lemma SplitAround(s: Text, n: nat)
    requires 1 <= n < |s|
    ensures s == [s[0]] + (s[1..n] + ([s[n]] + s[n + 1..]))
  {
  }

  lemma ParsedIsString(s: Text) returns (ps: seq<Piece>)
    requires At(s, QUOTE) && ParseString(s).Ok?
    ensures PiecesOk(ps) && PiecesValue(ps) == ParseString(s).value
    ensures s == StringText(ps) + ParseString(s).rest
  {
    var n := ScanString(s[1..], false).length;
    ps := DecodedIsPieces(s[1..n]);
    ScanStopsAtQuote(s[1..], false);
    assert s[n] == QUOTE;
    hide ScanString, DecodeBody, PiecesText, PiecesValue;
    var rest := s[n + 1..];
    SplitAround(s, n);
    Prefixed(s[1..n], [QUOTE], rest);
    Prefixed([QUOTE], s[1..n] + [QUOTE], rest);
  }

  // ----- every accepted text is grammatical

  lemma {:induction false} ParsedIsTree(finite: Text -> bool, here: Text, s: Text) returns (t: Tree)
    requires ParseValue(finite, here, s).Ok?
    ensures TreeOk(finite, t) && TreeValue(finite, t) == ParseValue(finite, here, s).value
    ensures s == TreeText(t) + ParseValue(finite, here, s).rest
    decreases |s|, 2
  {
    hide ParseObject, ParseArray, ParseString, NumberLength, NumberOk, NumberText, StringText, PiecesOk, PiecesValue, Spaces,
         FieldsText, FieldsOk, FieldsValue, ElementsText, ElementsOk, ElementsValue;
    if At(s, LEFT_BRACE) {
      t := ParsedIsObject(finite, here, s);
    } else if At(s, LEFT_BRACKET) {
      t := ParsedIsArray(finite, here, s);
    } else if At(s, QUOTE) {
      var ps := ParsedIsString(s);
      t := TString(ps);
    } else if TRUE_TEXT <= s {
      SplitFront(s, TRUE_TEXT);
      t := TBool(true);
    } else if FALSE_TEXT <= s {
      SplitFront(s, FALSE_TEXT);
      t := TBool(false);
    } else if NULL_TEXT <= s {
      SplitFront(s, NULL_TEXT);
      t := TNull;
    } else {
      var n := NumberIsGrammatical(s);
      SplitFront(s, s[..NumberLength(s)]);
      t := TNumber(n);
    }
  }

  lemma SplitFront(s: Text, front: Text)
    requires front <= s
    ensures s == front + s[|front|..]
  {
  }

  lemma {:induction false} ParsedIsObject(finite: Text -> bool, here: Text, s: Text) returns (t: Tree)
    requires At(s, LEFT_BRACE) && ParseObject(finite, here, s).Ok?
    ensures TreeOk(finite, t) && TreeValue(finite, t) == ParseObject(finite, here, s).value
    ensures s == TreeText(t) + ParseObject(finite, here, s).rest
    decreases |s|, 1
  {
    hide ParseMembers, SkipSpace, FieldsText, FieldsValue, FieldsOk;
    var none: map<Text, Json> := map[];
    assert none.Keys == {};
    var pad := SkippedAreSpaces(s[1..]);
    var u := SkipSpace(s[1..]);
    assert s == [LEFT_BRACE] + s[1..];
    if At(u, RIGHT_BRACE) {
      t := TObject(pad, NoFields);
      EmptyObjectDenotes(finite, pad);
      assert u == [RIGHT_BRACE] + u[1..];
      Prefixed(pad, [RIGHT_BRACE], u[1..]);
      Prefixed([LEFT_BRACE], pad + [RIGHT_BRACE], u[1..]);
    } else {
      var fs := ParsedIsFields(finite, here, s[1..], none);
      t := TObject([], fs);
      Prefixed([LEFT_BRACE], FieldsText(fs), ParseMembers(finite, here, u, none).rest);
    }
  }

  lemma EmptyObjectDenotes(finite: Text -> bool, pad: Text)
    requires Spaces(pad)
    ensures TreeOk(finite, TObject(pad, NoFields)) && TreeValue(finite, TObject(pad, NoFields)) == JObject(map[])
  {
  }

  lemma {:induction false} ParsedIsFields(finite: Text -> bool, here: Text, s: Text, members: map<Text, Json>) returns (fs: Fields)
    requires ParseMembers(finite, here, SkipSpace(s), members).Ok?
    ensures fs.Field? && FieldsOk(finite, fs, members.Keys)
    ensures JObject(FieldsValue(finite, fs, members)) == ParseMembers(finite, here, SkipSpace(s), members).value
    ensures s == FieldsText(fs) + ParseMembers(finite, here, SkipSpace(s), members).rest
    decreases |s|, 0
  {
    hide TreeText, TreeOk, TreeValue, FieldsText, StringText, ParseValue, ParseString, SkipSpace, Spaces, PiecesValue, PiecesOk;
    var before := SkippedAreSpaces(s);
    var q := SkipSpace(s);
    var key := ParsedIsString(q);
    var r1 := ParseString(q).rest;
    var name := ParseString(q).value;
    var afterKey := SkippedAreSpaces(r1);
    var r2 := SkipSpace(r1);
    var beforeValue := SkippedAreSpaces(r2[1..]);
    var r3 := SkipSpace(r2[1..]);
    var value := ParsedIsTree(finite, MemberPointer(here, name), r3);
    var r4 := ParseValue(finite, MemberPointer(here, name), r3).rest;
    var after := SkippedAreSpaces(r4);
    var r5 := SkipSpace(r4);
    var grown := members[name := ParseValue(finite, MemberPointer(here, name), r3).value];
    assert grown.Keys == members.Keys + {name};
    if At(r5, RIGHT_BRACE) {
      fs := Field(before, key, afterKey, beforeValue, value, after, NoFields);
      FieldTextSplits(s, fs, q, r1, r2, r3, r4, r5, r5[1..]);
    } else {
      var rest := ParsedIsFields(finite, here, r5[1..], grown);
      fs := Field(before, key, afterKey, beforeValue, value, after, rest);
      FieldTextSplits(s, fs, q, r1, r2, r3, r4, r5, ParseMembers(finite, here, q, members).rest);
    }
  }

  lemma FieldTextSplits(s: Text, fs: Fields, q: Text, r1: Text, r2: Text, r3: Text, r4: Text, r5: Text, rest: Text)
    requires fs.Field? && s == fs.before + q && q == StringText(fs.key) + r1 && r1 == fs.afterKey + r2
    requires At(r2, COLON) && r2[1..] == fs.beforeValue + r3 && r3 == TreeText(fs.value) + r4 && r4 == fs.after + r5
    requires r5 != [] && (if fs.rest.NoFields? then r5[0] == RIGHT_BRACE && r5[1..] == rest
                          else r5[0] == COMMA && r5[1..] == FieldsText(fs.rest) + rest)
    ensures s == FieldsText(fs) + rest
  {
    hide TreeText, StringText;
    var end := FieldEnd(fs);
    EndSplits(fs, r5, rest);
    Prefixed(fs.after, end, rest);
    var e1 := fs.after + end;
    Prefixed(TreeText(fs.value), e1, rest);
    var e2 := TreeText(fs.value) + e1;
    Prefixed(fs.beforeValue, e2, rest);
    var e3 := fs.beforeValue + e2;
    assert r2 == [COLON] + r2[1..];
    Prefixed([COLON], e3, rest);
    var e4 := [COLON] + e3;
    Prefixed(fs.afterKey, e4, rest);
    var e5 := fs.afterKey + e4;
    Prefixed(StringText(fs.key), e5, rest);
    Prefixed(fs.before, StringText(fs.key) + e5, rest);
  }

  lemma Prefixed(a: Text, part: Text, rest: Text)
    ensures a + (part + rest) == a + part + rest
  {
  }

  lemma EndSplits(fs: Fields, r5: Text, rest: Text)
    requires fs.Field? && r5 != []
    requires if fs.rest.NoFields? then r5[0] == RIGHT_BRACE && r5[1..] == rest
             else r5[0] == COMMA && r5[1..] == FieldsText(fs.rest) + rest
    ensures r5 == FieldEnd(fs) + rest
  {
    hide FieldsText;
    assert r5 == [r5[0]] + r5[1..];
    if !fs.rest.NoFields? { Prefixed([COMMA], FieldsText(fs.rest), rest); }
  }

  lemma {:induction false} ParsedIsArray(finite: Text -> bool, here: Text, s: Text) returns (t: Tree)
    requires At(s, LEFT_BRACKET) && ParseArray(finite, here, s).Ok?
    ensures TreeOk(finite, t) && TreeValue(finite, t) == ParseArray(finite, here, s).value
    ensures s == TreeText(t) + ParseArray(finite, here, s).rest
    decreases |s|, 1
  {
    hide ParseElements, SkipSpace, ElementsText, ElementsOk, ElementsValue;
    SplitFront(s, [LEFT_BRACKET]);
    var pad := SkippedAreSpaces(s[1..]);
    var u := SkipSpace(s[1..]);
    if At(u, RIGHT_BRACKET) {
      t := TArray(pad, NoElements);
      EmptyArrayDenotes(finite, pad);
      SplitFront(u, [RIGHT_BRACKET]);
      Prefixed(pad, [RIGHT_BRACKET], u[1..]);
      Prefixed([LEFT_BRACKET], pad + [RIGHT_BRACKET], u[1..]);
    } else {
      var es := ParsedIsElements(finite, here, s[1..], []);
      t := TArray([], es);
      assert [] + ElementsValue(finite, es) == ElementsValue(finite, es);
      Prefixed([LEFT_BRACKET], ElementsText(es), ParseElements(finite, here, u, []).rest);
    }
  }

  lemma EmptyArrayDenotes(finite: Text -> bool, pad: Text)
    requires Spaces(pad)
    ensures TreeOk(finite, TArray(pad, NoElements)) && TreeValue(finite, TArray(pad, NoElements)) == JArray([])
  {
  }

  lemma {:induction false} ParsedIsElements(finite: Text -> bool, here: Text, s: Text, items: seq<Json>) returns (es: Elements)
    requires ParseElements(finite, here, SkipSpace(s), items).Ok?
    ensures es.Element? && ElementsOk(finite, es)
    ensures JArray(items + ElementsValue(finite, es)) == ParseElements(finite, here, SkipSpace(s), items).value
    ensures s == ElementsText(es) + ParseElements(finite, here, SkipSpace(s), items).rest
    decreases |s|, 3
  {
    hide TreeText, TreeOk, TreeValue, ElementsText, ParseValue, SkipSpace;
    var before := SkippedAreSpaces(s);
    var q := SkipSpace(s);
    var value := ParsedIsTree(finite, ItemPointer(here, |items|), q);
    var v := ParseValue(finite, ItemPointer(here, |items|), q).value;
    var r1 := ParseValue(finite, ItemPointer(here, |items|), q).rest;
    var after := SkippedAreSpaces(r1);
    var r2 := SkipSpace(r1);
    if At(r2, RIGHT_BRACKET) {
      es := Element(before, value, after, NoElements);
      ElementTextSplits(s, es, q, r1, r2, r2[1..]);
    } else {
      var rest := ParsedIsElements(finite, here, r2[1..], items + [v]);
      es := Element(before, value, after, rest);
      ElementTextSplits(s, es, q, r1, r2, ParseElements(finite, here, q, items).rest);
      assert items + ([v] + ElementsValue(finite, rest)) == items + [v] + ElementsValue(finite, rest);
    }
  }

  lemma ElementTextSplits(s: Text, es: Elements, q: Text, r1: Text, r2: Text, rest: Text)
    requires es.Element? && s == es.before + q && q == TreeText(es.value) + r1 && r1 == es.after + r2
    requires r2 != [] && (if es.rest.NoElements? then r2[0] == RIGHT_BRACKET && r2[1..] == rest
                          else r2[0] == COMMA && r2[1..] == ElementsText(es.rest) + rest)
    ensures s == ElementsText(es) + rest
  {
    var end := if es.rest.NoElements? then [RIGHT_BRACKET] else [COMMA] + ElementsText(es.rest);
    assert r2 == end + rest;
    assert r1 == (es.after + end) + rest;
    assert q == (TreeText(es.value) + (es.after + end)) + rest;
  }

  // ----- every grammatical text is accepted

  lemma TreeStartsSolid(finite: Text -> bool, t: Tree)
    requires TreeOk(finite, t)
    ensures TreeText(t) != [] && !IsSpace(TreeText(t)[0]) && TreeText(t)[0] !in {COMMA, RIGHT_BRACKET, RIGHT_BRACE, COLON}
  {
  }

  lemma {:induction false} TreeIsParsed(finite: Text -> bool, here: Text, t: Tree, rest: Text)
    requires TreeOk(finite, t) && EndsNumber(rest)
    ensures ParseValue(finite, here, TreeText(t) + rest) == Ok(TreeValue(finite, t), rest)
    decreases t, 1
  {
    var s := TreeText(t) + rest;
    match t
    case TNull => assert s[..4] == NULL_TEXT && s[4..] == rest;
    case TBool(b) =>
      if b { assert s[..4] == TRUE_TEXT && s[4..] == rest; } else { assert s[..5] == FALSE_TEXT && s[5..] == rest; }
    case TNumber(n) => NumberTreeIsParsed(finite, here, n, rest);
    case TString(ps) => StringIsParsed(ps, rest);
    case TArray(pad, es) => ArrayIsParsed(finite, here, pad, es, rest);
    case TObject(pad, fs) => ObjectIsParsed(finite, here, pad, fs, rest);
  }

  lemma NumberTreeIsParsed(finite: Text -> bool, here: Text, n: Number, rest: Text)
    requires NumberOk(n) && finite(NumberText(n)) && EndsNumber(rest)
    ensures ParseValue(finite, here, NumberText(n) + rest) == Ok(JNumber(NumberText(n)), rest)
  {
    hide NumberLength;
    var s := NumberText(n) + rest;
    NumberIsMatched(n, rest);
    assert s[0] == MINUS || IsDigit(s[0]);
    assert s[..|NumberText(n)|] == NumberText(n) && s[|NumberText(n)|..] == rest;
  }

  lemma {:induction false} ArrayIsParsed(finite: Text -> bool, here: Text, pad: Text, es: Elements, rest: Text)
    requires Spaces(pad) && ElementsOk(finite, es)
    ensures ParseValue(finite, here, TreeText(TArray(pad, es)) + rest) == Ok(JArray(ElementsValue(finite, es)), rest)
    decreases es, 2
  {
    hide ParseElements, ElementsText, SkipSpace, Spaces;
    var s := TreeText(TArray(pad, es)) + rest;
    if es.NoElements? {
      Prefixed([LEFT_BRACKET], pad + [RIGHT_BRACKET], rest);
      Prefixed(pad, [RIGHT_BRACKET], rest);
      assert s[1..] == pad + ([RIGHT_BRACKET] + rest) by { DropFront([LEFT_BRACKET], pad + ([RIGHT_BRACKET] + rest)); }
      SkipsSpaces(pad, [RIGHT_BRACKET] + rest);
      DropFront([RIGHT_BRACKET], rest);
    } else {
      Prefixed([LEFT_BRACKET], ElementsText(es), rest);
      assert s[1..] == ElementsText(es) + rest by { DropFront([LEFT_BRACKET], ElementsText(es) + rest); }
      ElementsAreParsed(finite, here, es, [], rest);
      SkipsToFirst(finite, es, rest);
      assert [] + ElementsValue(finite, es) == ElementsValue(finite, es);
    }
  }

  lemma SkipsToFirst(finite: Text -> bool, es: Elements, rest: Text)
    requires es.Element? && ElementsOk(finite, es)
    ensures var tail := es.after + ((if es.rest.NoElements? then [RIGHT_BRACKET] else [COMMA] + ElementsText(es.rest)) + rest);
            && SkipSpace(ElementsText(es) + rest) == TreeText(es.value) + tail
            && !At(SkipSpace(ElementsText(es) + rest), RIGHT_BRACKET)
            && EndsNumber(tail)
            && SkipSpace(tail) == (if es.rest.NoElements? then [RIGHT_BRACKET] else [COMMA] + ElementsText(es.rest)) + rest
  {
    hide SkipSpace, TreeText, TreeOk;
    var end := if es.rest.NoElements? then [RIGHT_BRACKET] else [COMMA] + ElementsText(es.rest);
    TreeStartsSolid(finite, es.value);
    ElementTextJoins(es, end, rest);
    hide ElementsText;
    var tail := es.after + (end + rest);
    SkipsSpaces(es.before, TreeText(es.value) + tail);
    SkipsSpaces(es.after, end + rest);
    assert es.after == [] ==> tail == end + rest;
  }

  lemma ElementTextJoins(es: Elements, end: Text, rest: Text)
    requires es.Element? && end == if es.rest.NoElements? then [RIGHT_BRACKET] else [COMMA] + ElementsText(es.rest)
    ensures ElementsText(es) + rest == es.before + (TreeText(es.value) + (es.after + (end + rest)))
  {
    hide TreeText;
    var e1 := es.after + end;
    var e2 := TreeText(es.value) + e1;
    Prefixed(es.before, e2, rest);
    Prefixed(TreeText(es.value), e1, rest);
    Prefixed(es.after, end, rest);
  }

  lemma {:induction false} ElementsAreParsed(finite: Text -> bool, here: Text, es: Elements, items: seq<Json>, rest: Text)
    requires es.Element? && ElementsOk(finite, es)
    ensures ParseElements(finite, here, SkipSpace(ElementsText(es) + rest), items) == Ok(JArray(items + ElementsValue(finite, es)), rest)
    decreases es, 1
  {
    hide TreeText, TreeOk, TreeValue, ElementsText, ParseValue, SkipSpace, EndsNumber, Spaces;
    SkipsToFirst(finite, es, rest);
    var end := (if es.rest.NoElements? then [RIGHT_BRACKET] else [COMMA] + ElementsText(es.rest)) + rest;
    var tail := es.after + end;
    TreeIsParsed(finite, ItemPointer(here, |items|), es.value, tail);
    var v := TreeValue(finite, es.value);
    assert SkipSpace(tail) == end;
    if es.rest.NoElements? {
      assert end[0] == RIGHT_BRACKET && end[1..] == rest;
      assert ElementsValue(finite, es) == [v] + ElementsValue(finite, es.rest) == [v];
    } else {
      assert end[0] == COMMA;
      assert end[1..] == ElementsText(es.rest) + rest;
      ElementsAreParsed(finite, here, es.rest, items + [v], rest);
      assert items + ([v] + ElementsValue(finite, es.rest)) == items + [v] + ElementsValue(finite, es.rest);
    }
  }

  lemma {:induction false} ObjectIsParsed(finite: Text -> bool, here: Text, pad: Text, fs: Fields, rest: Text)
    requires Spaces(pad) && FieldsOk(finite, fs, {})
    ensures TreeOk(finite, TObject(pad, fs))
    ensures ParseValue(finite, here, TreeText(TObject(pad, fs)) + rest) == Ok(TreeValue(finite, TObject(pad, fs)), rest)
    decreases fs, 2
  {
    hide ParseMembers, FieldsText;
    var none: map<Text, Json> := map[];
    assert none.Keys == {};
    var s := TreeText(TObject(pad, fs)) + rest;
    if fs.NoFields? {
      assert s[1..] == pad + ([RIGHT_BRACE] + rest);
      SkipsSpaces(pad, [RIGHT_BRACE] + rest);
    } else {
      assert s[1..] == FieldsText(fs) + rest;
      FieldsAreParsed(finite, here, fs, none, rest);
      SkipsToKey(fs, rest);
    }
  }

  function FieldEnd(fs: Fields): Text
    requires fs.Field?
  {
    if fs.rest.NoFields? then [RIGHT_BRACE] else [COMMA] + FieldsText(fs.rest)
  }

  lemma SkipsToKey(fs: Fields, rest: Text)
    requires fs.Field? && Spaces(fs.before)
    ensures SkipSpace(FieldsText(fs) + rest) ==
              StringText(fs.key) + (fs.afterKey + ([COLON] + (fs.beforeValue + (TreeText(fs.value) + (fs.after + (FieldEnd(fs) + rest))))))
    ensures At(SkipSpace(FieldsText(fs) + rest), QUOTE)
  {
    var tail := StringText(fs.key) + (fs.afterKey + ([COLON] + (fs.beforeValue + (TreeText(fs.value) + (fs.after + (FieldEnd(fs) + rest))))));
    FieldTextJoins(fs, rest);
    hide TreeText, FieldsText;
    SkipsSpaces(fs.before, tail);
  }

  lemma FieldTextJoins(fs: Fields, rest: Text)
    requires fs.Field?
    ensures FieldsText(fs) + rest == fs.before +
              (StringText(fs.key) + (fs.afterKey + ([COLON] + (fs.beforeValue + (TreeText(fs.value) + (fs.after + (FieldEnd(fs) + rest)))))))
  {
    hide TreeText, StringText;
    var e1 := fs.after + FieldEnd(fs);
    var e2 := TreeText(fs.value) + e1;
    var e3 := fs.beforeValue + e2;
    var e4 := [COLON] + e3;
    var e5 := fs.afterKey + e4;
    Prefixed(fs.before, StringText(fs.key) + e5, rest);
    Prefixed(StringText(fs.key), e5, rest);
    Prefixed(fs.afterKey, e4, rest);
    Prefixed([COLON], e3, rest);
    Prefixed(fs.beforeValue, e2, rest);
    Prefixed(TreeText(fs.value), e1, rest);
    Prefixed(fs.after, FieldEnd(fs), rest);
  }

  lemma EndIsSolid(fs: Fields, rest: Text)
    requires fs.Field?
    ensures FieldEnd(fs) != [] && FieldEnd(fs)[0] in {COMMA, RIGHT_BRACE}
    ensures FieldEnd(fs) + rest != [] && (FieldEnd(fs) + rest)[0] in {COMMA, RIGHT_BRACE}
  {
    hide FieldsText;
  }

  /** The parse positions inside one member. */
  lemma SkipsThroughField(finite: Text -> bool, fs: Fields, seen: set<Text>, rest: Text)
    requires fs.Field? && FieldsOk(finite, fs, seen)
    ensures var r4 := fs.after + (FieldEnd(fs) + rest);
            var r3 := TreeText(fs.value) + r4;
            var r2 := [COLON] + (fs.beforeValue + r3);
            && SkipSpace(fs.afterKey + r2) == r2 && r2[1..] == fs.beforeValue + r3
            && SkipSpace(fs.beforeValue + r3) == r3
            && EndsNumber(r4)
            && SkipSpace(r4) == FieldEnd(fs) + rest
  {
    var end := FieldEnd(fs) + rest;
    var r4 := fs.after + end;
    var r3 := TreeText(fs.value) + r4;
    var r2 := [COLON] + (fs.beforeValue + r3);
    TreeStartsSolid(finite, fs.value);
    EndIsSolid(fs, rest);
    assert fs.beforeValue + r3 == r2[1..];
    assert Spaces(fs.afterKey) && Spaces(fs.beforeValue) && Spaces(fs.after);
    hide TreeText, FieldEnd, TreeOk, FieldsOk, SkipSpace;
    SkipsSpaces(fs.afterKey, r2);
    SkipsSpaces(fs.beforeValue, r3);
    SkipsSpaces(fs.after, end);
    assert fs.after == [] ==> r4 == end;
  }

  lemma {:induction false} FieldsAreParsed(finite: Text -> bool, here: Text, fs: Fields, members: map<Text, Json>, rest: Text)
    requires fs.Field? && FieldsOk(finite, fs, members.Keys)
    ensures ParseMembers(finite, here, SkipSpace(FieldsText(fs) + rest), members) == Ok(JObject(FieldsValue(finite, fs, members)), rest)
    decreases fs, 1
  {
    hide TreeText, TreeOk, TreeValue, FieldsText, StringText, ParseValue, ParseString, SkipSpace, EndsNumber, Spaces, PiecesValue, PiecesOk;
    SkipsToKey(fs, rest);
    SkipsThroughField(finite, fs, members.Keys, rest);
    var r4 := fs.after + (FieldEnd(fs) + rest);
    var r2 := [COLON] + (fs.beforeValue + (TreeText(fs.value) + r4));
    StringIsParsed(fs.key, fs.afterKey + r2);
    TreeIsParsed(finite, MemberPointer(here, PiecesValue(fs.key)), fs.value, r4);
    var grown := members[PiecesValue(fs.key) := TreeValue(finite, fs.value)];
    assert grown.Keys == members.Keys + {PiecesValue(fs.key)};
    if fs.rest.NoFields? {
      assert (FieldEnd(fs) + rest)[1..] == rest;
    } else {
      assert (FieldEnd(fs) + rest)[1..] == FieldsText(fs.rest) + rest;
      FieldsAreParsed(finite, here, fs.rest, grown, rest);
    }
  }

  // ----- the whole parser

  /** A text spelled by a grammatical tree is accepted with the value it denotes,
      so no text denotes two values. */
  lemma AcceptsTheGrammar(finite: Text -> bool, text: Text, before: Text, t: Tree, after: Text)
    requires Spells(finite, text, before, t, after)
    ensures ParseText(finite, text) == Value(TreeValue(finite, t))
  {
    TreeStartsSolid(finite, t);
    SkipsSpaces(before, TreeText(t) + after);
    assert EndsNumber(after);
    TreeIsParsed(finite, [], t, after);
    SkipsSpaces(after, []);
    assert after + [] == after;
  }

  /** An accepted text is spelled by a grammatical tree that denotes the result. */
  lemma AcceptsOnlyTheGrammar(finite: Text -> bool, text: Text) returns (before: Text, t: Tree, after: Text)
    requires ParseText(finite, text).Value?
    ensures Spells(finite, text, before, t, after)
    ensures ParseText(finite, text) == Value(TreeValue(finite, t))
  {
    before := SkippedAreSpaces(text);
    t := ParsedIsTree(finite, [], SkipSpace(text));
    var rest := ParseValue(finite, [], SkipSpace(text)).rest;
    after := SkippedAreSpaces(rest);
    assert after + [] == after;
  }
}
