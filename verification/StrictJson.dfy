/** The strict JSON parser as the object it is: an immutable text and an offset
    that every method advances. Each method is proved against the function on the
    text that is left. */
module StrictJson {
  import opened CodeUnits
  import opened JsonGrammar
  import opened StrictJsonModel
  import opened StrictJsonProofs

  /** A method's result agrees with the specification: the same exception, or the
      same value with the same text left to read. */
  ghost predicate Agrees<T>(result: Result<T>, left: Text, parsed: Parse<T>) {
    match parsed
    case Err(error) => result == Thrown(error)
    case Ok(value, rest) => result == Value(value) && left == rest
  }

  /** The part of a member before its value. */
  function ParseName(here: Text, s: Text, seen: set<Text>): Parse<Text> {
    if !At(s, QUOTE) then Err(InvalidSchema)
    else
      match ParseString(s)
      case Err(e) => Err(e)
      case Ok(key, r1) =>
        if key in seen then Err(DuplicateMember(MemberPointer(here, key)))
        else
          var r2 := SkipSpace(r1);
          if !At(r2, COLON) then Err(InvalidSchema) else Ok(key, SkipSpace(r2[1..]))
  }

  /** What follows a member's value. */
  function AfterMember(finite: Text -> bool, here: Text, rest: Text, members: map<Text, Json>): Parse<Json> {
    var s := SkipSpace(rest);
    if At(s, RIGHT_BRACE) then Ok(JObject(members), s[1..])
    else if !At(s, COMMA) then Err(InvalidSchema)
    else ParseMembers(finite, here, SkipSpace(s[1..]), members)
  }

  lemma MembersByName(finite: Text -> bool, here: Text, s: Text, members: map<Text, Json>)
    ensures ParseMembers(finite, here, s, members) ==
            match ParseName(here, s, members.Keys)
            case Err(e) => Err(e)
            case Ok(key, rest) =>
              match ParseValue(finite, MemberPointer(here, key), rest)
              case Err(e) => Err(e)
              case Ok(value, left) => AfterMember(finite, here, left, members[key := value])
  {
    hide ParseString, ParseValue, SkipSpace;
  }

  /** What follows an array's item. */
  function AfterItem(finite: Text -> bool, here: Text, rest: Text, items: seq<Json>): Parse<Json> {
    var s := SkipSpace(rest);
    if At(s, RIGHT_BRACKET) then Ok(JArray(items), s[1..])
    else if !At(s, COMMA) then Err(InvalidSchema)
    else ParseElements(finite, here, SkipSpace(s[1..]), items)
  }

  lemma ElementsByItem(finite: Text -> bool, here: Text, s: Text, items: seq<Json>)
    ensures ParseElements(finite, here, s, items) ==
            match ParseValue(finite, ItemPointer(here, |items|), s)
            case Err(e) => Err(e)
            case Ok(value, left) => AfterItem(finite, here, left, items + [value])
  {
    hide ParseValue, SkipSpace;
  }

  class StrictJsonParser {
    const text: Text
    const finite: Text -> bool
    var offset: nat

    constructor (text: Text, finite: Text -> bool)
      ensures this.text == text && this.finite == finite && offset == 0
    {
      this.text := text;
      this.finite := finite;
      offset := 0;
    }

    predicate NextIs(u: Unit)
      reads this
    {
      offset < |text| && text[offset] == u
    }

    /** The whole text as one value. */
    method Parse() returns (r: Result<Json>)
      requires offset == 0
      modifies this`offset
      ensures offset <= |text|
      ensures r == ParseText(finite, text)
    {
      assert text[0..] == text;
      Space();
      r := ParseValueHere([]);
      if r.Value? {
        Space();
        if offset != |text| {
          r := Thrown(InvalidSchema);
        }
      }
    }

    method Space()
      requires offset <= |text|
      modifies this`offset
      ensures old(offset) <= offset <= |text|
      ensures text[offset..] == SkipSpace(old(text[offset..]))
    {
      while offset < |text| && IsSpace(text[offset])
        invariant old(offset) <= offset <= |text|
        invariant SkipSpace(text[offset..]) == SkipSpace(old(text[offset..]))
      {
        assert text[offset..][1..] == text[offset + 1..];
        offset := offset + 1;
      }
    }

    method ParseValueHere(here: Text) returns (r: Result<Json>)
      requires offset <= |text|
      modifies this`offset
      ensures offset <= |text| && (r.Value? ==> old(offset) < offset)
      ensures Agrees(r, text[offset..], ParseValue(finite, here, old(text[offset..])))
      decreases |text| - offset, 2
    {
      ghost var left := text[offset..];
      if NextIs(LEFT_BRACE) {
        r := ParseObjectHere(here);
      } else if NextIs(LEFT_BRACKET) {
        r := ParseArrayHere(here);
      } else if NextIs(QUOTE) {
        var literal := ParseStringHere();
        r := if literal.Value? then Value(JString(literal.value)) else Thrown(literal.error);
      } else {
        r := ParseScalarHere(here);
      }
    }

    /** A literal name, or else a number. */
    method ParseScalarHere(here: Text) returns (r: Result<Json>)
      requires offset <= |text|
      requires !NextIs(LEFT_BRACE) && !NextIs(LEFT_BRACKET) && !NextIs(QUOTE)
      modifies this`offset
      ensures offset <= |text| && (r.Value? ==> old(offset) < offset)
      ensures Agrees(r, text[offset..], ParseValue(finite, here, old(text[offset..])))
    {
      hide NumberLength;
      var left := text[offset..];
      if TRUE_TEXT <= left {
        offset := offset + 4;
        return Value(JBool(true));
      }
      if FALSE_TEXT <= left {
        offset := offset + 5;
        return Value(JBool(false));
      }
      if NULL_TEXT <= left {
        offset := offset + 4;
        return Value(JNull);
      }
      var length := NumberLength(left);
      if length > 0 {
        offset := offset + length;
        r := if finite(left[..length]) then Value(JNumber(left[..length])) else Thrown(InvalidSchema);
      } else {
        r := Thrown(InvalidSchema);
      }
    }

    method ParseObjectHere(here: Text) returns (r: Result<Json>)
      requires offset < |text| && NextIs(LEFT_BRACE)
      modifies this`offset
      ensures offset <= |text| && (r.Value? ==> old(offset) < offset)
      ensures Agrees(r, text[offset..], ParseObject(finite, here, old(text[offset..])))
      decreases |text| - offset, 1
    {
      hide ParseMembers, SkipSpace;
      assert text[offset..][1..] == text[offset + 1..];
      offset := offset + 1;
      Space();
      if NextIs(RIGHT_BRACE) {
        offset := offset + 1;
        return Value(JObject(map[]));
      }
      r := ParseMembersHere(here);
    }

    method ParseMembersHere(here: Text) returns (r: Result<Json>)
      requires offset <= |text|
      modifies this`offset
      ensures offset <= |text| && (r.Value? ==> old(offset) < offset)
      ensures Agrees(r, text[offset..], ParseMembers(finite, here, old(text[offset..]), map[]))
      decreases |text| - offset, 1
    {
      hide ParseMembers, ParseValue, ParseString, SkipSpace, ParseName;
      var result: map<Text, Json> := map[];
      var seen: set<Text> := {};
      ghost var target := ParseMembers(finite, here, text[offset..], map[]);
      while true
        invariant old(offset) <= offset <= |text|
        invariant seen == result.Keys
        invariant ParseMembers(finite, here, text[offset..], result) == target
        decreases |text| - offset
      {
        MembersByName(finite, here, text[offset..], result);
        var key := ParseNameHere(here, seen);
        if key.Thrown? {
          return Thrown(key.error);
        }
        seen := seen + {key.value};
        var value := ParseValueHere(MemberPointer(here, key.value));
        if value.Thrown? {
          return value;
        }
        result := result[key.value := value.value];
        Space();
        assert offset < |text| ==> text[offset..][1..] == text[offset + 1..];
        if NextIs(RIGHT_BRACE) {
          offset := offset + 1;
          return Value(JObject(result));
        }
        if !NextIs(COMMA) {
          return Thrown(InvalidSchema);
        }
        offset := offset + 1;
        Space();
      }
    }

    /** A member's name up to the value it names. */
    method ParseNameHere(here: Text, seen: set<Text>) returns (r: Result<Text>)
      requires offset <= |text|
      modifies this`offset
      ensures offset <= |text| && (r.Value? ==> old(offset) < offset)
      ensures Agrees(r, text[offset..], ParseName(here, old(text[offset..]), seen))
    {
      hide ParseString, SkipSpace;
      if !NextIs(QUOTE) {
        return Thrown(InvalidSchema);
      }
      r := ParseStringHere();
      if r.Thrown? {
        return;
      }
      if r.value in seen {
        return Thrown(DuplicateMember(MemberPointer(here, r.value)));
      }
      Space();
      if !NextIs(COLON) {
        return Thrown(InvalidSchema);
      }
      assert text[offset..][1..] == text[offset + 1..];
      offset := offset + 1;
      Space();
    }

    method ParseArrayHere(here: Text) returns (r: Result<Json>)
      requires offset < |text| && NextIs(LEFT_BRACKET)
      modifies this`offset
      ensures offset <= |text| && (r.Value? ==> old(offset) < offset)
      ensures Agrees(r, text[offset..], ParseArray(finite, here, old(text[offset..])))
      decreases |text| - offset, 1
    {
      hide ParseElements, SkipSpace;
      assert text[offset..][1..] == text[offset + 1..];
      offset := offset + 1;
      Space();
      if NextIs(RIGHT_BRACKET) {
        offset := offset + 1;
        return Value(JArray([]));
      }
      r := ParseElementsHere(here);
    }

    method ParseElementsHere(here: Text) returns (r: Result<Json>)
      requires offset <= |text|
      modifies this`offset
      ensures offset <= |text| && (r.Value? ==> old(offset) < offset)
      ensures Agrees(r, text[offset..], ParseElements(finite, here, old(text[offset..]), []))
      decreases |text| - offset, 3
    {
      hide ParseValue, ParseElements, SkipSpace;
      var result: seq<Json> := [];
      ghost var target := ParseElements(finite, here, text[offset..], []);
      while true
        invariant old(offset) <= offset <= |text|
        invariant ParseElements(finite, here, text[offset..], result) == target
        decreases |text| - offset
      {
        ElementsByItem(finite, here, text[offset..], result);
        var value := ParseValueHere(ItemPointer(here, |result|));
        if value.Thrown? {
          return value;
        }
        result := result + [value.value];
        Space();
        assert offset < |text| ==> text[offset..][1..] == text[offset + 1..];
        if NextIs(RIGHT_BRACKET) {
          offset := offset + 1;
          return Value(JArray(result));
        }
        if !NextIs(COMMA) {
          return Thrown(InvalidSchema);
        }
        offset := offset + 1;
        Space();
      }
    }

    method ParseStringHere() returns (r: Result<Text>)
      requires offset < |text| && NextIs(QUOTE)
      modifies this`offset
      ensures offset <= |text| && (r.Value? ==> old(offset) < offset)
      ensures Agrees(r, text[offset..], ParseString(old(text[offset..])))
    {
      hide DecodeBody, SkipSpace, ScanString;
      var start := offset;
      ghost var left := text[start..];
      assert left[1..] == text[start + 1..];
      offset := offset + 1;
      var closed := ScanHere();
      if !closed {
        return Thrown(InvalidSchema);
      }
      assert left[1..offset - start - 1] == text[start + 1..offset - 1];
      assert left[offset - start..] == text[offset..];
      var decoded := DecodeBody(text[start + 1..offset - 1]);
      r := if decoded.Units? then Value(decoded.units) else Thrown(InvalidSchema);
    }

    /** Up to and including the closing quote, or to where the literal is broken. */
    method ScanHere() returns (closed: bool)
      requires offset <= |text|
      modifies this`offset
      ensures old(offset) <= offset <= |text|
      ensures ScanString(old(text[offset..]), false) == if closed then Closed(offset - old(offset)) else Unclosed
    {
      var escaped := false;
      while offset < |text|
        invariant old(offset) <= offset <= |text|
        invariant ScanString(old(text[offset..]), false) == Past(offset - old(offset), ScanString(text[offset..], escaped))
      {
        var unit := text[offset];
        assert text[offset..][1..] == text[offset + 1..];
        offset := offset + 1;
        if !escaped && unit == QUOTE {
          return true;
        }
        if !escaped && unit < 0x20 {
          return false;
        }
        escaped := !escaped && unit == BACKSLASH;
        if unit != BACKSLASH {
          escaped := false;
        }
      }
      closed := false;
    }
  }
}
