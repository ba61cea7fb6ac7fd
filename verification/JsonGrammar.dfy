/** JSON texts as RFC 8259 defines them, independently of any parser: concrete
    syntax trees, the text each tree spells and the value it denotes.

    Texts are sequences of UTF-16 code units. */
module JsonGrammar {
  import opened CodeUnits

  /** Numbers are kept as their lexemes. */
  datatype Json =
    | JNull
    | JBool(value: bool)
    | JNumber(lexeme: Text)
    | JString(text: Text)
    | JArray(items: seq<Json>)
    | JObject(members: map<Text, Json>)

  const QUOTE: Unit := 34
  const PLUS: Unit := 43
  const COMMA: Unit := 44
  const MINUS: Unit := 45
  const DOT: Unit := 46
  const SLASH: Unit := 47
  const COLON: Unit := 58
  const LEFT_BRACKET: Unit := 91
  const BACKSLASH: Unit := 92
  const RIGHT_BRACKET: Unit := 93
  const LOWER_U: Unit := 117
  const LEFT_BRACE: Unit := 123
  const RIGHT_BRACE: Unit := 125
  const TRUE_TEXT: Text := [116, 114, 117, 101]
  const FALSE_TEXT: Text := [102, 97, 108, 115, 101]
  const NULL_TEXT: Text := [110, 117, 108, 108]

  // ----- section 2: insignificant whitespace

  predicate IsSpace(u: Unit) { u == 0x20 || u == 0x09 || u == 0x0A || u == 0x0D }

  predicate Spaces(s: Text) { forall i :: 0 <= i < |s| ==> IsSpace(s[i]) }

  // ----- section 6: numbers

  predicate IsDigit(u: Unit) { 48 <= u <= 57 }

  predicate Digits(s: Text) { |s| > 0 && forall i :: 0 <= i < |s| ==> IsDigit(s[i]) }

  /** `frac` and `expDigits` are empty when the part is absent. */
  datatype Number = Number(minus: bool, whole: Text, frac: Text, expMark: Text, expSign: Text, expDigits: Text)

  predicate NumberOk(n: Number) {
    && Digits(n.whole) && (n.whole[0] == 48 ==> |n.whole| == 1)
    && (n.frac == [] || Digits(n.frac))
    && (if n.expDigits == [] then n.expMark == [] && n.expSign == []
        else n.expMark in {[101], [69]} && n.expSign in {[], [PLUS], [MINUS]} && Digits(n.expDigits))
  }

  function FracText(n: Number): Text { if n.frac == [] then [] else [DOT] + n.frac }
  function ExpText(n: Number): Text { n.expMark + (n.expSign + n.expDigits) }
  function UnsignedText(n: Number): Text { n.whole + (FracText(n) + ExpText(n)) }
  function NumberText(n: Number): Text { (if n.minus then [MINUS] else []) + UnsignedText(n) }

  // ----- section 7: strings

  datatype Piece = Plain(unit: Unit) | Escape(code: Unit) | Hex(h3: Unit, h2: Unit, h1: Unit, h0: Unit)

  predicate IsHex(u: Unit) { IsDigit(u) || 65 <= u <= 70 || 97 <= u <= 102 }

  function HexValue(u: Unit): (v: int)
    requires IsHex(u)
    ensures 0 <= v < 16
  {
    if IsDigit(u) then u - 48 else if u <= 70 then u - 55 else u - 87
  }

  /** The characters that may follow a backslash, and what each stands for. */
  predicate IsEscape(u: Unit) { u in {QUOTE, BACKSLASH, SLASH, 98, 102, 110, 114, 116} }

  function EscapeValue(u: Unit): Unit
    requires IsEscape(u)
  {
    if u == 98 then 0x08 else if u == 102 then 0x0C else if u == 110 then 0x0A
    else if u == 114 then 0x0D else if u == 116 then 0x09 else u
  }

  function HexUnit(h3: Unit, h2: Unit, h1: Unit, h0: Unit): Unit
    requires IsHex(h3) && IsHex(h2) && IsHex(h1) && IsHex(h0)
  {
    4096 * HexValue(h3) + 256 * HexValue(h2) + 16 * HexValue(h1) + HexValue(h0)
  }

  predicate IsUnescaped(u: Unit) { u >= 0x20 && u != QUOTE && u != BACKSLASH }

  predicate PieceOk(p: Piece) {
    match p
    case Plain(u) => IsUnescaped(u)
    case Escape(c) => IsEscape(c)
    case Hex(a, b, c, d) => IsHex(a) && IsHex(b) && IsHex(c) && IsHex(d)
  }

  function PieceText(p: Piece): Text {
    match p
    case Plain(u) => [u]
    case Escape(c) => [BACKSLASH, c]
    case Hex(a, b, c, d) => [BACKSLASH, LOWER_U, a, b, c, d]
  }

  function PieceValue(p: Piece): Unit
    requires PieceOk(p)
  {
    match p
    case Plain(u) => u
    case Escape(c) => EscapeValue(c)
    case Hex(a, b, c, d) => HexUnit(a, b, c, d)
  }

  predicate PiecesOk(ps: seq<Piece>) { forall i :: 0 <= i < |ps| ==> PieceOk(ps[i]) }

  function PiecesText(ps: seq<Piece>): Text {
    if ps == [] then [] else PieceText(ps[0]) + PiecesText(ps[1..])
  }

  function PiecesValue(ps: seq<Piece>): Text
    requires PiecesOk(ps)
  {
    if ps == [] then [] else [PieceValue(ps[0])] + PiecesValue(ps[1..])
  }

  function StringText(ps: seq<Piece>): Text { [QUOTE] + (PiecesText(ps) + [QUOTE]) }

  // ----- sections 3 to 5: values, objects, arrays

  datatype Tree =
    | TNull
    | TBool(b: bool)
    | TNumber(number: Number)
    | TString(pieces: seq<Piece>)
    | TArray(arrayPad: Text, elements: Elements)
    | TObject(objectPad: Text, fields: Fields)

  /** A pad is the whitespace of an empty array or object and unused otherwise. */
  datatype Elements =
    | NoElements
    | Element(before: Text, value: Tree, after: Text, rest: Elements)

  datatype Fields =
    | NoFields
    | Field(before: Text, key: seq<Piece>, afterKey: Text, beforeValue: Text, value: Tree, after: Text, rest: Fields)

  function TreeText(t: Tree): Text {
    match t
    case TNull => NULL_TEXT
    case TBool(b) => if b then TRUE_TEXT else FALSE_TEXT
    case TNumber(n) => NumberText(n)
    case TString(ps) => StringText(ps)
    case TArray(pad, es) => [LEFT_BRACKET] + (if es.NoElements? then pad + [RIGHT_BRACKET] else ElementsText(es))
    case TObject(pad, fs) => [LEFT_BRACE] + (if fs.NoFields? then pad + [RIGHT_BRACE] else FieldsText(fs))
  }

  function ElementsText(es: Elements): Text {
    match es
    case NoElements => [RIGHT_BRACKET]
    case Element(before, value, after, rest) =>
      before + (TreeText(value) + (after + (if rest.NoElements? then [RIGHT_BRACKET] else [COMMA] + ElementsText(rest))))
  }

  function FieldsText(fs: Fields): Text {
    match fs
    case NoFields => [RIGHT_BRACE]
    case Field(before, key, afterKey, beforeValue, value, after, rest) =>
      before + (StringText(key) + (afterKey + ([COLON] + (beforeValue + (TreeText(value) + (after +
        (if rest.NoFields? then [RIGHT_BRACE] else [COMMA] + FieldsText(rest))))))))
  }

  /** A tree of the grammar whose numbers are finite and whose objects repeat no name. */
  predicate TreeOk(finite: Text -> bool, t: Tree) {
    match t
    case TNull => true
    case TBool(_) => true
    case TNumber(n) => NumberOk(n) && finite(NumberText(n))
    case TString(ps) => PiecesOk(ps)
    case TArray(pad, es) => Spaces(pad) && ElementsOk(finite, es)
    case TObject(pad, fs) => Spaces(pad) && FieldsOk(finite, fs, {})
  }

  predicate ElementsOk(finite: Text -> bool, es: Elements) {
    match es
    case NoElements => true
    case Element(before, value, after, rest) => Spaces(before) && TreeOk(finite, value) && Spaces(after) && ElementsOk(finite, rest)
  }

  predicate FieldsOk(finite: Text -> bool, fs: Fields, seen: set<Text>) {
    match fs
    case NoFields => true
    case Field(before, key, afterKey, beforeValue, value, after, rest) =>
      && Spaces(before) && PiecesOk(key) && Spaces(afterKey) && Spaces(beforeValue) && TreeOk(finite, value) && Spaces(after)
      && PiecesValue(key) !in seen
      && FieldsOk(finite, rest, seen + {PiecesValue(key)})
  }

  function TreeValue(finite: Text -> bool, t: Tree): Json
    requires TreeOk(finite, t)
  {
    match t
    case TNull => JNull
    case TBool(b) => JBool(b)
    case TNumber(n) => JNumber(NumberText(n))
    case TString(ps) => JString(PiecesValue(ps))
    case TArray(_, es) => JArray(ElementsValue(finite, es))
    case TObject(_, fs) =>
      var none: map<Text, Json> := map[];
      assert none.Keys == {};
      JObject(FieldsValue(finite, fs, none))
  }

  function ElementsValue(finite: Text -> bool, es: Elements): seq<Json>
    requires ElementsOk(finite, es)
  {
    match es
    case NoElements => []
    case Element(_, value, _, rest) => [TreeValue(finite, value)] + ElementsValue(finite, rest)
  }

  function FieldsValue(finite: Text -> bool, fs: Fields, members: map<Text, Json>): map<Text, Json>
    requires FieldsOk(finite, fs, members.Keys)
  {
    match fs
    case NoFields => members
    case Field(_, key, _, _, value, _, rest) =>
      assert members[PiecesValue(key) := TreeValue(finite, value)].Keys == members.Keys + {PiecesValue(key)};
      FieldsValue(finite, rest, members[PiecesValue(key) := TreeValue(finite, value)])
  }

  /** A JSON text: one value with whitespace around it. */
  ghost predicate Spells(finite: Text -> bool, text: Text, before: Text, t: Tree, after: Text) {
    Spaces(before) && Spaces(after) && TreeOk(finite, t) && text == before + (TreeText(t) + after)
  }
}
