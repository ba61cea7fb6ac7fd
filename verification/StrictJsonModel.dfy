/** The strict JSON parser as functions on the text that is left to read. */
module StrictJsonModel {
  import opened CodeUnits
  import opened JsonGrammar

  /** Which of its two errors the parser throws. */
  datatype JsonError = InvalidSchema | DuplicateMember(pointer: Text)

  datatype Parse<+T> = Ok(value: T, rest: Text) | Err(error: JsonError)

  function SkipSpace(s: Text): (r: Text)
    ensures |r| <= |s|
    ensures r != [] ==> !IsSpace(r[0])
  {
    if s != [] && IsSpace(s[0]) then SkipSpace(s[1..]) else s
  }

  predicate At(s: Text, u: Unit) { s != [] && s[0] == u }

  // ----- numbers: the longest match of the number pattern

  function DigitCount(s: Text): (n: nat)
    ensures n <= |s|
    ensures forall i :: 0 <= i < n ==> IsDigit(s[i])
    ensures n < |s| ==> !IsDigit(s[n])
  {
    if s != [] && IsDigit(s[0]) then 1 + DigitCount(s[1..]) else 0
  }

  function IntLength(s: Text): (n: nat)
    ensures n <= |s|
  {
    if At(s, 48) then 1 else DigitCount(s)
  }

  function FracLength(s: Text): (n: nat)
    ensures n <= |s|
  {
    if At(s, DOT) && DigitCount(s[1..]) > 0 then 1 + DigitCount(s[1..]) else 0
  }

  function SignLength(s: Text): (n: nat)
    ensures n <= |s|
  {
    if At(s, PLUS) || At(s, MINUS) then 1 else 0
  }

  function ExpLength(s: Text): (n: nat)
    ensures n <= |s|
  {
    if !At(s, 101) && !At(s, 69) then 0
    else
      var sign := SignLength(s[1..]);
      var digits := DigitCount(s[1 + sign..]);
      if digits == 0 then 0 else 1 + sign + digits
  }

  function FracExpLength(s: Text): (n: nat)
    ensures n <= |s|
  {
    FracLength(s) + ExpLength(s[FracLength(s)..])
  }

  function UnsignedLength(s: Text): (n: nat)
    ensures n <= |s|
  {
    if IntLength(s) == 0 then 0 else IntLength(s) + FracExpLength(s[IntLength(s)..])
  }

  /** The length of the number at the front, 0 when there is none. */
  function NumberLength(s: Text): (n: nat)
    ensures n <= |s|
  {
    var minus := if At(s, MINUS) then 1 else 0;
    var rest := UnsignedLength(s[minus..]);
    if rest == 0 then 0 else minus + rest
  }

  // ----- strings

  /** Units up to and including the closing quote; None for a control character
      outside an escape or a text that ends first. */
  datatype Scan = Closed(length: nat) | Unclosed

  function ScanString(s: Text, escaped: bool): (r: Scan)
    ensures r.Closed? ==> 1 <= r.length <= |s|
  {
    if s == [] then Unclosed
    else if !escaped && s[0] == QUOTE then Closed(1)
    else if !escaped && s[0] < 0x20 then Unclosed
    else
      var tail := ScanString(s[1..], !escaped && s[0] == BACKSLASH);
      if tail.Unclosed? then Unclosed else Closed(1 + tail.length)
  }

  datatype Decoded = Units(units: Text) | Undecodable

  function Prepend(u: Unit, d: Decoded): Decoded {
    if d.Undecodable? then d else Units([u] + d.units)
  }

  /** What the platform's decoder makes of the inside of a string literal. */
  function DecodeBody(b: Text): Decoded {
    if b == [] then Units([])
    else if b[0] == BACKSLASH then
      if |b| >= 2 && IsEscape(b[1]) then Prepend(EscapeValue(b[1]), DecodeBody(b[2..]))
      else if |b| >= 6 && b[1] == LOWER_U && IsHex(b[2]) && IsHex(b[3]) && IsHex(b[4]) && IsHex(b[5]) then
        Prepend(HexUnit(b[2], b[3], b[4], b[5]), DecodeBody(b[6..]))
      else Undecodable
    else if IsUnescaped(b[0]) then Prepend(b[0], DecodeBody(b[1..]))
    else Undecodable
  }

  /** `s` starts with the opening quote. */
  function ParseString(s: Text): (r: Parse<Text>)
    requires At(s, QUOTE)
    ensures r.Ok? ==> |r.rest| < |s|
  {
    var scan := ScanString(s[1..], false);
    if scan.Unclosed? then Err(InvalidSchema)
    else
      var decoded := DecodeBody(s[1..scan.length]);
      if decoded.Undecodable? then Err(InvalidSchema) else Ok(decoded.units, s[1 + scan.length..])
  }

  // ----- pointers into the text's value

  const TILDE: Unit := 126

  function EscapePointer(key: Text): Text {
    if key == [] then []
    else (if key[0] == TILDE then [TILDE, 48] else if key[0] == SLASH then [TILDE, 49] else [key[0]]) + EscapePointer(key[1..])
  }

  function Decimal(n: nat): Text { if n < 10 then [48 + n] else Decimal(n / 10) + [48 + n % 10] }

  function MemberPointer(here: Text, key: Text): Text { here + [SLASH] + EscapePointer(key) }

  function ItemPointer(here: Text, index: nat): Text { here + [SLASH] + Decimal(index) }

  // ----- values; `here` points to the one that is read

  function ParseValue(finite: Text -> bool, here: Text, s: Text): (r: Parse<Json>)
    ensures r.Ok? ==> |r.rest| < |s|
    decreases |s|, 2
  {
    if At(s, LEFT_BRACE) then ParseObject(finite, here, s)
    else if At(s, LEFT_BRACKET) then ParseArray(finite, here, s)
    else if At(s, QUOTE) then
      match ParseString(s) { case Err(e) => Err(e) case Ok(text, rest) => Ok(JString(text), rest) }
    else if TRUE_TEXT <= s then Ok(JBool(true), s[4..])
    else if FALSE_TEXT <= s then Ok(JBool(false), s[5..])
    else if NULL_TEXT <= s then Ok(JNull, s[4..])
    else
      var n := NumberLength(s);
      if n == 0 || !finite(s[..n]) then Err(InvalidSchema) else Ok(JNumber(s[..n]), s[n..])
  }

  function ParseObject(finite: Text -> bool, here: Text, s: Text): (r: Parse<Json>)
    requires At(s, LEFT_BRACE)
    ensures r.Ok? ==> |r.rest| < |s|
    decreases |s|, 1
  {
    var t := SkipSpace(s[1..]);
    if At(t, RIGHT_BRACE) then Ok(JObject(map[]), t[1..]) else ParseMembers(finite, here, t, map[])
  }

  function ParseMembers(finite: Text -> bool, here: Text, s: Text, members: map<Text, Json>): (r: Parse<Json>)
    ensures r.Ok? ==> |r.rest| < |s|
    decreases |s|, 1
  {
    if !At(s, QUOTE) then Err(InvalidSchema)
    else
      match ParseString(s)
      case Err(e) => Err(e)
      case Ok(key, r1) =>
        if key in members then Err(DuplicateMember(MemberPointer(here, key)))
        else
          var r2 := SkipSpace(r1);
          if !At(r2, COLON) then Err(InvalidSchema)
          else
            var r3 := SkipSpace(r2[1..]);
            match ParseValue(finite, MemberPointer(here, key), r3)
            case Err(e) => Err(e)
            case Ok(value, r4) =>
              var r5 := SkipSpace(r4);
              if At(r5, RIGHT_BRACE) then Ok(JObject(members[key := value]), r5[1..])
              else if !At(r5, COMMA) then Err(InvalidSchema)
              else ParseMembers(finite, here, SkipSpace(r5[1..]), members[key := value])
  }

  function ParseArray(finite: Text -> bool, here: Text, s: Text): (r: Parse<Json>)
    requires At(s, LEFT_BRACKET)
    ensures r.Ok? ==> |r.rest| < |s|
    decreases |s|, 1
  {
    var t := SkipSpace(s[1..]);
    if At(t, RIGHT_BRACKET) then Ok(JArray([]), t[1..]) else ParseElements(finite, here, t, [])
  }

  function ParseElements(finite: Text -> bool, here: Text, s: Text, items: seq<Json>): (r: Parse<Json>)
    ensures r.Ok? ==> |r.rest| < |s|
    decreases |s|, 3
  {
    match ParseValue(finite, ItemPointer(here, |items|), s)
    case Err(e) => Err(e)
    case Ok(value, r1) =>
      var r2 := SkipSpace(r1);
      if At(r2, RIGHT_BRACKET) then Ok(JArray(items + [value]), r2[1..])
      else if !At(r2, COMMA) then Err(InvalidSchema)
      else ParseElements(finite, here, SkipSpace(r2[1..]), items + [value])
  }

  datatype Result<+T> = Value(value: T) | Thrown(error: JsonError)

  function ParseText(finite: Text -> bool, text: Text): Result<Json> {
    match ParseValue(finite, [], SkipSpace(text))
    case Err(e) => Thrown(e)
    case Ok(value, rest) => if SkipSpace(rest) == [] then Value(value) else Thrown(InvalidSchema)
  }
}
