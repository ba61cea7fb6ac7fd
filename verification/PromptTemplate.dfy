/** The prompt template scanner: what a token is, and which templates parse. */
module PromptTemplate {
  import opened CodeUnits
  import opened Options

  const MAX_TOKENS: nat := 256
  const MARKER: Text := [36, 123, 123]
  const INPUT: Text := [105, 110, 112, 117, 116]
  const CLOSING: Text := [125, 125]
  const DOT: Unit := 46
  const SLASH: Unit := 47

  // ----- the grammar of a token

  predicate IsBlank(u: Unit) { u == 32 || u == 9 }

  predicate Blanks(s: Text) { forall i :: 0 <= i < |s| ==> IsBlank(s[i]) }

  predicate StartsName(u: Unit) { 65 <= u <= 90 || 97 <= u <= 122 || u == 95 }

  predicate InName(u: Unit) { StartsName(u) || 48 <= u <= 57 || u == 45 }

  /** One to sixty-four characters, the first a letter or an underscore. */
  predicate IsName(s: Text) { 1 <= |s| <= 64 && StartsName(s[0]) && forall i :: 0 <= i < |s| ==> InName(s[i]) }

  predicate AreNames(names: seq<Text>) { forall i :: 0 <= i < |names| ==> IsName(names[i]) }

  function Accessor(names: seq<Text>): Text { if names == [] then [] else [DOT] + (names[0] + Accessor(names[1..])) }

  function Pointer(names: seq<Text>): Text { if names == [] then [] else [SLASH] + (names[0] + Pointer(names[1..])) }

  function TokenText(before: Text, names: seq<Text>, after: Text): Text {
    MARKER + (before + (INPUT + (Accessor(names) + (after + CLOSING))))
  }

  ghost predicate TokenOk(before: Text, names: seq<Text>, after: Text) { Blanks(before) && names != [] && AreNames(names) && Blanks(after) }

  // ----- the token pattern

  function BlankLength(s: Text): (n: nat)
    ensures n <= |s|
  {
    if s != [] && IsBlank(s[0]) then 1 + BlankLength(s[1..]) else 0
  }

  /** Name characters at the front, at most `room`. */
  function TailLength(s: Text, room: nat): (n: nat)
    ensures n <= |s| && n <= room
  {
    if room > 0 && s != [] && InName(s[0]) then 1 + TailLength(s[1..], room - 1) else 0
  }

  function NameLength(s: Text): (n: nat)
    ensures n <= |s| && n <= 64
  {
    if s != [] && StartsName(s[0]) then 1 + TailLength(s[1..], 63) else 0
  }

  /** The names of a dotted accessor at the front and what follows it. */
  function NamesOf(s: Text): (r: (seq<Text>, Text))
    ensures |r.1| <= |s|
    decreases |s|
  {
    if s != [] && s[0] == DOT && NameLength(s[1..]) > 0 then
      var n := NameLength(s[1..]);
      var rest := NamesOf(s[1 + n..]);
      ([s[1..1 + n]] + rest.0, rest.1)
    else ([], s)
  }

  datatype Match = Match(names: seq<Text>, rest: Text)

  /** The token at the front of `s`, if there is one. */
  function MatchToken(s: Text): (m: Option<Match>)
    ensures m.Some? ==> |m.value.rest| < |s|
  {
    if !(MARKER <= s) then None
    else
      var s1 := s[3..];
      var s2 := s1[BlankLength(s1)..];
      if !(INPUT <= s2) then None
      else
        var accessor := NamesOf(s2[5..]);
        var s3 := accessor.1[BlankLength(accessor.1)..];
        if accessor.0 == [] || !(CLOSING <= s3) then None else Some(Match(accessor.0, s3[2..]))
  }

  // ----- the pattern matches exactly the grammar

  lemma {:induction false} SkipsBlanks(blanks: Text, rest: Text)
    requires Blanks(blanks) && (rest == [] || !IsBlank(rest[0]))
    ensures BlankLength(blanks + rest) == |blanks| && (blanks + rest)[|blanks|..] == rest
  {
    if blanks == [] {
      assert blanks + rest == rest;
    } else {
      assert (blanks + rest)[1..] == blanks[1..] + rest;
      SkipsBlanks(blanks[1..], rest);
    }
  }

  lemma {:induction false} SkippedAreBlanks(s: Text)
    ensures Blanks(s[..BlankLength(s)])
  {
    if s != [] && IsBlank(s[0]) {
      SkippedAreBlanks(s[1..]);
      assert s[..BlankLength(s)] == [s[0]] + s[1..][..BlankLength(s[1..])];
    }
  }

  lemma {:induction false} TailIsMatched(tail: Text, rest: Text, room: nat)
    requires |tail| <= room && (forall i :: 0 <= i < |tail| ==> InName(tail[i])) && (rest == [] || !InName(rest[0]))
    ensures TailLength(tail + rest, room) == |tail|
  {
    if tail == [] {
      assert tail + rest == rest;
    } else {
      assert (tail + rest)[1..] == tail[1..] + rest;
      TailIsMatched(tail[1..], rest, room - 1);
    }
  }

  lemma {:induction false} TailIsOfName(s: Text, room: nat)
    ensures forall i :: 0 <= i < TailLength(s, room) ==> InName(s[i])
  {
    if room > 0 && s != [] && InName(s[0]) {
      TailIsOfName(s[1..], room - 1);
      forall i | 0 <= i < TailLength(s, room) ensures InName(s[i]) {
        if i > 0 { assert s[i] == s[1..][i - 1]; }
      }
    }
  }

  lemma NameIsMatched(name: Text, rest: Text)
    requires IsName(name) && (rest == [] || !InName(rest[0]))
    ensures NameLength(name + rest) == |name|
  {
    assert (name + rest)[1..] == name[1..] + rest;
    TailIsMatched(name[1..], rest, 63);
  }

  lemma MatchedIsName(s: Text)
    requires NameLength(s) > 0
    ensures IsName(s[..NameLength(s)])
  {
    TailIsOfName(s[1..], 63);
    forall i | 1 <= i < NameLength(s) ensures InName(s[i]) { assert s[i] == s[1..][i - 1]; }
  }

  /** What may follow an accessor: blanks or the closing braces. */
  predicate EndsAccessor(rest: Text) { rest != [] && !InName(rest[0]) && rest[0] != DOT }

  lemma {:induction false} NamesAreMatched(names: seq<Text>, rest: Text)
    requires AreNames(names) && EndsAccessor(rest)
    ensures NamesOf(Accessor(names) + rest) == (names, rest)
  {
    if names == [] {
      assert Accessor(names) + rest == rest;
    } else {
      var tail := Accessor(names[1..]) + rest;
      assert IsName(names[0]) && AreNames(names[1..]);
      NamesAreMatched(names[1..], rest);
      AccessorJoins(names, rest);
      AccessorStarts(names[1..], rest);
      hide IsName, AreNames, NamesOf, NameLength, Accessor;
      NameIsMatched(names[0], tail);
      FirstNameIsMatched(names[0], tail, names[1..], rest);
      assert names == [names[0]] + names[1..];
    }
  }

  lemma AccessorStarts(names: seq<Text>, rest: Text)
    requires EndsAccessor(rest)
    ensures Accessor(names) + rest != [] && !InName((Accessor(names) + rest)[0])
  {
  }

  lemma AccessorJoins(names: seq<Text>, rest: Text)
    requires names != []
    ensures Accessor(names) + rest == [DOT] + (names[0] + (Accessor(names[1..]) + rest))
  {
    hide IsName;
    var a := Accessor(names[1..]);
    assert names[0] + a + rest == names[0] + (a + rest);
  }

  lemma FirstNameIsMatched(name: Text, tail: Text, names: seq<Text>, rest: Text)
    requires IsName(name) && NameLength(name + tail) == |name| && NamesOf(tail) == (names, rest)
    ensures NamesOf([DOT] + (name + tail)) == ([name] + names, rest)
  {
    assert |name| > 0;
    hide IsName, NameLength;
    var s := [DOT] + (name + tail);
    assert s[1..] == name + tail;
    assert s[1..1 + |name|] == name && s[1 + |name|..] == tail;
  }

  lemma {:induction false} MatchedAreNames(s: Text)
    ensures AreNames(NamesOf(s).0) && s == Accessor(NamesOf(s).0) + NamesOf(s).1
    decreases |s|
  {
    if s != [] && s[0] == DOT && NameLength(s[1..]) > 0 {
      var n := NameLength(s[1..]);
      MatchedIsName(s[1..]);
      MatchedAreNames(s[1 + n..]);
      NamesUnfold(s, n);
      hide NamesOf, IsName, NameLength, AreNames, Accessor;
      var rest := NamesOf(s[1 + n..]);
      AccessorGrows(s[1..1 + n], rest.0, rest.1);
    }
  }

  lemma NamesUnfold(s: Text, n: nat)
    requires s != [] && s[0] == DOT && n == NameLength(s[1..]) > 0
    ensures s[1..][..n] == s[1..1 + n] && s == [DOT] + (s[1..1 + n] + s[1 + n..])
    ensures NamesOf(s) == ([s[1..1 + n]] + NamesOf(s[1 + n..]).0, NamesOf(s[1 + n..]).1)
  {
    hide NameLength;
    assert s[1..1 + n] == s[1..][..n] && s[1 + n..] == s[1..][n..] by { hide NamesOf; }
    SplitAt(s, 1);
    SplitAt(s[1..], n);
    assert s[..1] == [DOT];
  }

  lemma AccessorGrows(name: Text, names: seq<Text>, rest: Text)
    requires IsName(name) && AreNames(names)
    ensures AreNames([name] + names)
    ensures Accessor([name] + names) + rest == [DOT] + (name + (Accessor(names) + rest))
  {
    hide IsName;
    assert ([name] + names)[1..] == names;
  }

  /** A token of the grammar is matched whole, with its names. */
  lemma GrammarIsMatched(before: Text, names: seq<Text>, after: Text, rest: Text)
    requires TokenOk(before, names, after)
    ensures MatchToken(TokenText(before, names, after) + rest) == Some(Match(names, rest))
  {
    hide Accessor, NamesOf, BlankLength, TokenText, Blanks, AreNames;
    var s3 := CLOSING + rest;
    var s2 := after + s3;
    var s1 := INPUT + (Accessor(names) + s2);
    TokenTextJoins(before, names, after, rest);
    DropFront(MARKER, before + s1);
    DropFront(INPUT, Accessor(names) + s2);
    DropFront(CLOSING, rest);
    SkipsBlanks(before, s1);
    BlanksOrCloses(after, rest);
    NamesAreMatched(names, s2);
    SkipsBlanks(after, s3);
  }

  /** What is matched is a token of the grammar. */
  lemma MatchIsGrammatical(s: Text) returns (before: Text, after: Text)
    requires MatchToken(s).Some?
    ensures TokenOk(before, MatchToken(s).value.names, after)
    ensures s == TokenText(before, MatchToken(s).value.names, after) + MatchToken(s).value.rest
  {
    hide Accessor, NamesOf, BlankLength, TokenText, Blanks, AreNames;
    var s1 := s[3..];
    var s2 := s1[BlankLength(s1)..];
    var names, s3 := NamesOf(s2[5..]).0, NamesOf(s2[5..]).1;
    var s4 := s3[BlankLength(s3)..];
    before, after := s1[..BlankLength(s1)], s3[..BlankLength(s3)];
    SkippedAreBlanks(s1);
    MatchedAreNames(s2[5..]);
    SkippedAreBlanks(s3);
    SplitFront(s, MARKER);
    SplitFront(s2, INPUT);
    SplitFront(s4, CLOSING);
    SplitAt(s1, BlankLength(s1));
    SplitAt(s3, BlankLength(s3));
    TokenTextJoins(before, names, after, s4[2..]);
  }

  lemma DropFront(front: Text, s: Text)
    ensures front <= front + s && (front + s)[|front|..] == s
  {
  }

  lemma BlanksOrCloses(after: Text, rest: Text)
    requires Blanks(after)
    ensures var s := after + (CLOSING + rest); s != [] && (IsBlank(s[0]) || s[0] == CLOSING[0])
  {
  }

  lemma SplitFront(s: Text, front: Text)
    requires front <= s
    ensures s == front + s[|front|..]
  {
  }

  lemma SplitAt(s: Text, n: nat)
    requires n <= |s|
    ensures s == s[..n] + s[n..]
  {
  }

  lemma TokenTextJoins(before: Text, names: seq<Text>, after: Text, rest: Text)
    ensures TokenText(before, names, after) + rest
            == MARKER + (before + (INPUT + (Accessor(names) + (after + (CLOSING + rest)))))
  {
    hide Accessor;
    var t3 := after + CLOSING;
    var t2 := Accessor(names) + t3;
    var t1 := INPUT + t2;
    Joined(after, CLOSING, rest);
    Joined(Accessor(names), t3, rest);
    Joined(INPUT, t2, rest);
    Joined(before, t1, rest);
    Joined(MARKER, before + t1, rest);
  }

  lemma Joined(a: Text, b: Text, c: Text)
    ensures (a + b) + c == a + (b + c)
  {
  }

  // ----- scanning

  datatype Token = Token(start: nat, end: nat, pointer: Text)

  datatype Parsed = Template(tokens: seq<Token>, inputPaths: seq<Text>) | InvalidToken(offset: nat) | TooManyTokens(offset: nat)

  predicate Occurs(s: Text, at: nat) { at <= |s| && MARKER <= s[at..] }

  /** Where the marker occurs at or after `from`, in order. */
  function Occurrences(s: Text, from: nat): (found: seq<nat>)
    requires from <= |s|
    ensures forall i :: 0 <= i < |found| ==> from <= found[i] && Occurs(s, found[i])
    ensures forall i, j :: 0 <= i < j < |found| ==> found[i] < found[j]
    ensures forall at: nat :: from <= at && Occurs(s, at) ==> at in found
    decreases |s| - from
  {
    if from == |s| then []
    else
      var rest := Occurrences(s, from + 1);
      if Occurs(s, from) then [from] + rest else rest
  }

  predicate IsToken(s: Text, at: nat) { at <= |s| && MatchToken(s[at..]).Some? }

  function EndOf(s: Text, at: nat): (end: nat)
    requires IsToken(s, at)
    ensures at < end <= |s|
  {
    |s| - |MatchToken(s[at..]).value.rest|
  }

  /** Names hold nothing a pointer escapes, so the pointer spells them as they are. */
  function TokenAt(s: Text, at: nat): Token
    requires IsToken(s, at)
  {
    Token(at, EndOf(s, at), Pointer(MatchToken(s[at..]).value.names))
  }

  predicate AllTokens(s: Text, starts: seq<nat>) { forall i :: 0 <= i < |starts| ==> IsToken(s, starts[i]) }

  function TokensAt(s: Text, starts: seq<nat>): (tokens: seq<Token>)
    requires AllTokens(s, starts)
    ensures |tokens| == |starts| && forall i :: 0 <= i < |starts| ==> tokens[i] == TokenAt(s, starts[i])
  {
    seq(|starts|, i requires 0 <= i < |starts| => TokenAt(s, starts[i]))
  }

  /** No dollar sign follows the first character of a token. */
  lemma {:induction false} AccessorIsPlain(names: seq<Text>)
    requires AreNames(names)
    ensures forall i :: 0 <= i < |Accessor(names)| ==> Accessor(names)[i] != MARKER[0]
  {
    if names != [] {
      assert IsName(names[0]);
      AccessorIsPlain(names[1..]);
    }
  }

  lemma TokenIsPlain(s: Text, at: nat)
    requires IsToken(s, at)
    ensures Occurs(s, at) && forall i :: at < i < EndOf(s, at) ==> s[i] != MARKER[0]
  {
    var t := s[at..];
    var before, after := MatchIsGrammatical(t);
    var names, rest := MatchToken(t).value.names, MatchToken(t).value.rest;
    hide MatchToken, TokenText;
    TextIsPlain(before, names, after);
    PlainWithin(s, at, TokenText(before, names, after), rest);
  }

  lemma PlainWithin(s: Text, at: nat, text: Text, rest: Text)
    requires at <= |s| && s[at..] == text + rest && MARKER <= text
    requires forall i :: 0 < i < |text| ==> text[i] != MARKER[0]
    ensures Occurs(s, at) && |s| - |rest| == at + |text| && forall i :: at < i < at + |text| ==> s[i] != MARKER[0]
  {
    forall i | at < i < at + |text| ensures s[i] != MARKER[0] {
      assert s[i] == s[at..][i - at] == text[i - at];
    }
    assert (text + rest)[..3] == text[..3];
  }

  lemma TextIsPlain(before: Text, names: seq<Text>, after: Text)
    requires TokenOk(before, names, after)
    ensures var text := TokenText(before, names, after);
            MARKER <= text && forall i :: 0 < i < |text| ==> text[i] != MARKER[0]
  {
    AccessorIsPlain(names);
    hide Accessor, AreNames;
    var inner := before + (INPUT + (Accessor(names) + (after + CLOSING)));
    assert forall i :: 0 <= i < |inner| ==> inner[i] != MARKER[0];
  }

  lemma {:induction false} NothingOccursBetween(s: Text, low: nat, high: nat)
    requires low <= high <= |s| && forall i :: low <= i < high ==> s[i] != MARKER[0]
    ensures Occurrences(s, low) == Occurrences(s, high)
    decreases high - low
  {
    if low < high {
      assert s[low..][0] == s[low];
      NothingOccursBetween(s, low + 1, high);
    }
  }

  lemma NextOccurrence(s: Text, at: nat)
    requires IsToken(s, at)
    ensures at < |s| && Occurrences(s, at) == [at] + Occurrences(s, EndOf(s, at))
  {
    TokenIsPlain(s, at);
    NothingOccursBetween(s, at + 1, EndOf(s, at));
  }

  method FindMarker(s: Text, from: nat) returns (at: Option<nat>)
    requires from <= |s|
    ensures at.None? <==> Occurrences(s, from) == []
    ensures at.Some? ==> from <= at.value < |s| && Occurs(s, at.value) && Occurrences(s, from) == Occurrences(s, at.value)
    ensures at.Some? ==> Occurrences(s, from)[0] == at.value
  {
    var n := from;
    while n < |s|
      invariant from <= n <= |s|
      invariant Occurrences(s, from) == Occurrences(s, n)
    {
      if Occurs(s, n) {
        return Some(n);
      }
      n := n + 1;
    }
    at := None;
  }

  predicate Selects(tokens: seq<Token>, path: Text) { exists i :: 0 <= i < |tokens| && tokens[i].pointer == path }

  ghost predicate Reports(template: Text, parsed: Parsed) {
    var all := Occurrences(template, 0);
    match parsed
    case Template(tokens, paths) =>
      && AllTokens(template, all) && |all| <= MAX_TOKENS && tokens == TokensAt(template, all)
      && Ascending(paths) && NoneTwice(paths) && forall path :: path in paths <==> Selects(tokens, path)
    case InvalidToken(at) =>
      exists i :: 0 <= i < |all| && i <= MAX_TOKENS && all[i] == at && AllTokens(template, all[..i]) && !IsToken(template, at)
    case TooManyTokens(at) => |all| > MAX_TOKENS && AllTokens(template, all[..MAX_TOKENS + 1]) && at == all[MAX_TOKENS]
  }

  /** A template parses exactly when every occurrence of the marker opens a token and
      there are at most 256; its tokens are then those occurrences in order, and its
      input paths their pointers, once each and sorted. Otherwise the first offence
      is reported where it is: an occurrence that opens no token among the first
      257, or the 257th token. */
  method ParsePromptTemplate(template: Text) returns (parsed: Parsed)
    ensures Reports(template, parsed)
  {
    hide MatchToken, Occurrences, Reports;
    var tokens: seq<Token> := [];
    var inputPaths: seq<Text> := [];
    var offset := 0;
    ghost var starts: seq<nat> := [];
    while offset < |template|
      invariant Scanned(template, starts, offset, tokens, inputPaths)
      decreases |template| - offset
    {
      var marker := FindMarker(template, offset);
      if marker.None? { break; }
      var at := marker.value;
      hide Scanned;
      MarkerIsReported(template, starts, offset, tokens, inputPaths, at);
      if !IsToken(template, at) {
        return InvalidToken(at);
      }
      if |tokens| >= MAX_TOKENS {
        return TooManyTokens(at);
      }
      var token := TokenAt(template, at);
      TokenIsScanned(template, starts, offset, tokens, inputPaths, at);
      tokens := tokens + [token];
      if token.pointer !in inputPaths {
        inputPaths := inputPaths + [token.pointer];
      }
      starts := starts + [at];
      offset := token.end;
    }
    EndHasNone(template, offset);
    ScanIsReported(template, starts, offset, tokens, inputPaths);
    parsed := Template(tokens, Sorted(inputPaths));
  }

  lemma ScanIsReported(s: Text, starts: seq<nat>, offset: nat, tokens: seq<Token>, paths: seq<Text>)
    requires Scanned(s, starts, offset, tokens, paths) && Occurrences(s, offset) == []
    ensures Reports(s, Template(tokens, Sorted(paths)))
  {
    hide Occurrences, IsToken, MatchToken;
    assert starts + [] == starts;
    SortedIsSorted(paths);
    SortedHoldsTheSame(paths);
  }

  lemma MarkerIsReported(s: Text, starts: seq<nat>, offset: nat, tokens: seq<Token>, paths: seq<Text>, at: nat)
    requires Scanned(s, starts, offset, tokens, paths) && Occurrences(s, offset) != [] && Occurrences(s, offset)[0] == at
    ensures |tokens| <= MAX_TOKENS
    ensures !IsToken(s, at) ==> Reports(s, InvalidToken(at))
    ensures IsToken(s, at) && |tokens| == MAX_TOKENS ==> Reports(s, TooManyTokens(at))
  {
    hide Occurrences, IsToken, Scanned, AllTokens, Reports;
    MarkerIsNext(s, starts, offset, tokens, paths, at);
    if !IsToken(s, at) {
      OffenceIsReported(s, |starts|, at);
    } else if |tokens| == MAX_TOKENS {
      ExcessIsReported(s, at);
    }
  }

  lemma OffenceIsReported(s: Text, n: nat, at: nat)
    requires n < |Occurrences(s, 0)| && n <= MAX_TOKENS && Occurrences(s, 0)[n] == at
    requires AllTokens(s, Occurrences(s, 0)[..n]) && !IsToken(s, at)
    ensures Reports(s, InvalidToken(at))
  {
    hide Occurrences, IsToken, AllTokens;
  }

  lemma ExcessIsReported(s: Text, at: nat)
    requires |Occurrences(s, 0)| > MAX_TOKENS && Occurrences(s, 0)[MAX_TOKENS] == at
    requires AllTokens(s, Occurrences(s, 0)[..MAX_TOKENS + 1])
    ensures Reports(s, TooManyTokens(at))
  {
    hide Occurrences, IsToken, AllTokens;
  }

  /** Where the scan stands: the occurrences before the offset are its tokens. */
  ghost predicate Scanned(s: Text, starts: seq<nat>, offset: nat, tokens: seq<Token>, paths: seq<Text>) {
    && offset <= |s| && Occurrences(s, 0) == starts + Occurrences(s, offset)
    && AllTokens(s, starts) && tokens == TokensAt(s, starts) && |tokens| <= MAX_TOKENS
    && PathsOf(tokens, paths)
  }

  /** The pointers of the tokens, once each. */
  ghost predicate PathsOf(tokens: seq<Token>, paths: seq<Text>) {
    NoneTwice(paths) && forall path :: path in paths <==> Selects(tokens, path)
  }

  lemma PathsAreAdded(tokens: seq<Token>, paths: seq<Text>, token: Token)
    requires PathsOf(tokens, paths)
    ensures PathsOf(tokens + [token], if token.pointer in paths then paths else paths + [token.pointer])
  {
    PathsGrow(tokens, token);
    hide Selects;
  }

  lemma MarkerIsNext(s: Text, starts: seq<nat>, offset: nat, tokens: seq<Token>, paths: seq<Text>, at: nat)
    requires Scanned(s, starts, offset, tokens, paths) && Occurrences(s, offset) != [] && Occurrences(s, offset)[0] == at
    ensures var all := Occurrences(s, 0);
            |starts| == |tokens| < |all| && all[|starts|] == at && all[..|starts|] == starts && AllTokens(s, starts)
            && |tokens| <= MAX_TOKENS && (IsToken(s, at) ==> AllTokens(s, all[..|starts| + 1]))
  {
    hide Occurrences, IsToken;
    assert Occurrences(s, 0)[..|starts| + 1] == starts + [at];
  }

  lemma TokenIsScanned(s: Text, starts: seq<nat>, offset: nat, tokens: seq<Token>, paths: seq<Text>, at: nat)
    requires Scanned(s, starts, offset, tokens, paths) && |tokens| < MAX_TOKENS && at <= |s|
    requires Occurrences(s, offset) == Occurrences(s, at) && IsToken(s, at)
    ensures var token := TokenAt(s, at);
            Scanned(s, starts + [at], token.end, tokens + [token], if token.pointer in paths then paths else paths + [token.pointer])
  {
    NextOccurrence(s, at);
    var token := TokenAt(s, at);
    assert token.end == EndOf(s, at) <= |s|;
    TokensExtend(s, starts, at);
    PathsAreAdded(tokens, paths, token);
    hide Occurrences, IsToken, MatchToken, EndOf, AllTokens, TokensAt, PathsOf, TokenAt;
    Reassociate(starts, [at], Occurrences(s, token.end));
  }

  lemma Reassociate(a: seq<nat>, b: seq<nat>, c: seq<nat>)
    ensures a + (b + c) == a + b + c
  {
  }

  lemma TokensExtend(s: Text, starts: seq<nat>, at: nat)
    requires AllTokens(s, starts) && IsToken(s, at)
    ensures AllTokens(s, starts + [at]) && TokensAt(s, starts + [at]) == TokensAt(s, starts) + [TokenAt(s, at)]
  {
    hide IsToken, TokenAt;
  }

  lemma EndHasNone(s: Text, from: nat)
    requires from <= |s|
    ensures from == |s| ==> Occurrences(s, from) == []
  {
  }

  lemma PathsGrow(tokens: seq<Token>, token: Token)
    ensures forall path :: Selects(tokens + [token], path) <==> path == token.pointer || Selects(tokens, path)
  {
    var all := tokens + [token];
    forall path ensures Selects(all, path) <==> path == token.pointer || Selects(tokens, path) {
      if Selects(tokens, path) {
        var i :| 0 <= i < |tokens| && tokens[i].pointer == path;
        assert all[i].pointer == path;
      }
      assert all[|tokens|] == token;
    }
  }

  /** The tokens of a parsed template are ordered and disjoint, and each spells a
      token of the grammar between its ends. */
  lemma TokensAreDisjoint(s: Text, i: nat)
    requires AllTokens(s, Occurrences(s, 0)) && i < |Occurrences(s, 0)|
    ensures var tokens := TokensAt(s, Occurrences(s, 0));
            tokens[i].start < tokens[i].end <= |s| && (i + 1 < |tokens| ==> tokens[i].end <= tokens[i + 1].start)
  {
    hide MatchToken;
    var all := Occurrences(s, 0);
    TokenIsPlain(s, all[i]);
    if i + 1 < |all| {
      assert Occurs(s, all[i + 1]);
      assert s[all[i + 1]..][0] == s[all[i + 1]];
    }
  }

  /** The text from `from` on as gaps and tokens in turn. */
  function Woven(s: Text, tokens: seq<Token>, from: nat): Text
    requires from <= |s| && InOrder(s, tokens, from)
    decreases |tokens|
  {
    if tokens == [] then s[from..]
    else s[from..tokens[0].start] + (s[tokens[0].start..tokens[0].end] + Woven(s, tokens[1..], tokens[0].end))
  }

  predicate InOrder(s: Text, tokens: seq<Token>, from: nat)
    decreases |tokens|
  {
    tokens == [] || (from <= tokens[0].start < tokens[0].end <= |s| && InOrder(s, tokens[1..], tokens[0].end))
  }

  ghost predicate Apart(tokens: seq<Token>, length: nat) {
    forall i :: 0 <= i < |tokens| ==>
      tokens[i].start < tokens[i].end <= length && (i + 1 < |tokens| ==> tokens[i].end <= tokens[i + 1].start)
  }

  lemma ApartAfter(tokens: seq<Token>, length: nat)
    requires Apart(tokens, length) && tokens != []
    ensures Apart(tokens[1..], length)
  {
    forall i | 0 <= i < |tokens[1..]| ensures tokens[1..][i] == tokens[i + 1] { }
  }

  lemma {:induction false} ApartAreInOrder(s: Text, tokens: seq<Token>, from: nat)
    requires Apart(tokens, |s|) && (tokens == [] || from <= tokens[0].start)
    ensures InOrder(s, tokens, from)
    decreases |tokens|
  {
    if tokens != [] {
      ApartAfter(tokens, |s|);
      ApartAreInOrder(s, tokens[1..], tokens[0].end);
    }
  }

  lemma SplitTwice(s: Text, a: nat, b: nat, c: nat)
    requires a <= b <= c <= |s|
    ensures s[a..] == s[a..b] + (s[b..c] + s[c..])
  {
  }

  lemma {:induction false} WovenIsTheText(s: Text, tokens: seq<Token>, from: nat)
    requires from <= |s| && InOrder(s, tokens, from)
    ensures Woven(s, tokens, from) == s[from..]
    decreases |tokens|
  {
    if tokens != [] {
      WovenIsTheText(s, tokens[1..], tokens[0].end);
      SplitTwice(s, from, tokens[0].start, tokens[0].end);
    }
  }

  /** The tokens and the gaps between them rebuild the template. */
  lemma TokensAndGapsRebuild(s: Text)
    requires AllTokens(s, Occurrences(s, 0))
    ensures var tokens := TokensAt(s, Occurrences(s, 0)); InOrder(s, tokens, 0) && Woven(s, tokens, 0) == s
  {
    hide Occurrences, TokensAt, AllTokens;
    var tokens := TokensAt(s, Occurrences(s, 0));
    forall i | 0 <= i < |tokens|
      ensures tokens[i].start < tokens[i].end <= |s| && (i + 1 < |tokens| ==> tokens[i].end <= tokens[i + 1].start)
    {
      TokensAreDisjoint(s, i);
    }
    ApartAreInOrder(s, tokens, 0);
    assert s[0..] == s;
    WovenIsTheText(s, tokens, 0);
  }

  // ----- declared input paths

  const MAX_DECLARED: nat := 256
  const MAX_PATH: nat := 1024
  const MAX_SEGMENTS: nat := 64
  const TILDE: Unit := 126

  function SlashCount(s: Text): nat { if s == [] then 0 else SlashCount(s[1..]) + (if s[0] == SLASH then 1 else 0) }

  /** A tilde that escapes nothing. */
  predicate HasLooseTilde(s: Text) {
    exists i :: 0 <= i < |s| && s[i] == TILDE && !(i + 1 < |s| && s[i + 1] in {48, 49})
  }

  predicate HasEmptySegment(s: Text) { exists i :: 0 <= i < |s| - 1 && s[i] == SLASH && s[i + 1] == SLASH }

  /** A JSON Pointer without empty segments whose tildes escape something. */
  predicate IsCanonicalPath(path: Text) {
    && 1 <= |path| <= MAX_PATH && path[0] == SLASH && path[|path| - 1] != SLASH && !HasEmptySegment(path)
    && SlashCount(path) <= MAX_SEGMENTS && !HasLooseTilde(path)
  }

  /** The parts of a text between its slashes. */
  function Split(s: Text): (segments: seq<Text>)
    ensures |segments| == SlashCount(s) + 1
    ensures segments[0] == [] <==> s == [] || s[0] == SLASH
    ensures segments[0] != [] ==> segments[0][0] == s[0]
  {
    if s == [] then [[]]
    else
      var rest := Split(s[1..]);
      if s[0] == SLASH then [[]] + rest else [[s[0]] + rest[0]] + rest[1..]
  }

  lemma LooseAtTheFront(u: Unit, s: Text)
    ensures HasLooseTilde([u] + s) <==> HasLooseTilde(s) || (u == TILDE && !(s != [] && s[0] in {48, 49}))
  {
    var all := [u] + s;
    if HasLooseTilde(s) {
      var i :| 0 <= i < |s| && s[i] == TILDE && !(i + 1 < |s| && s[i + 1] in {48, 49});
      assert all[i + 1] == s[i] && (i + 2 < |all| ==> all[i + 2] == s[i + 1]);
    }
    if HasLooseTilde(all) {
      var i :| 0 <= i < |all| && all[i] == TILDE && !(i + 1 < |all| && all[i + 1] in {48, 49});
      if i > 0 { assert s[i - 1] == TILDE && (i < |s| ==> s[i] == all[i + 1]); }
    }
    if u == TILDE && !(s != [] && s[0] in {48, 49}) { assert all[0] == TILDE && !(1 < |all| && all[1] in {48, 49}); }
  }

  ghost predicate SomeLoose(segments: seq<Text>) { exists k :: 0 <= k < |segments| && HasLooseTilde(segments[k]) }

  lemma LooseInFront(first: Text, rest: seq<Text>)
    ensures SomeLoose([first] + rest) <==> HasLooseTilde(first) || SomeLoose(rest)
  {
    var all := [first] + rest;
    if HasLooseTilde(first) { assert HasLooseTilde(all[0]); }
    if k :| 0 <= k < |rest| && HasLooseTilde(rest[k]) { assert HasLooseTilde(all[k + 1]); }
  }

  /** A text has a loose tilde exactly when one of its segments has. */
  lemma {:induction false} LooseInASegment(s: Text)
    ensures HasLooseTilde(s) <==> SomeLoose(Split(s))
  {
    if s != [] {
      var rest := Split(s[1..]);
      LooseInASegment(s[1..]);
      assert s == [s[0]] + s[1..];
      LooseAtTheFront(s[0], s[1..]);
      if s[0] == SLASH {
        LooseInFront([], rest);
      } else {
        hide HasLooseTilde, SomeLoose;
        LooseAtTheFront(s[0], rest[0]);
        LooseInFront([s[0]] + rest[0], rest[1..]);
        assert rest == [rest[0]] + rest[1..];
        LooseInFront(rest[0], rest[1..]);
      }
    }
  }

  /** No slash at either end and none beside another: every segment holds something. */
  lemma {:induction false} SegmentsHoldSomething(s: Text)
    requires s != [] && s[0] != SLASH && s[|s| - 1] != SLASH && !HasEmptySegment(s)
    ensures forall k :: 0 <= k < |Split(s)| ==> Split(s)[k] != []
    decreases |s|
  {
    if |s| > 1 {
      var t := s[1..];
      forall i | 0 <= i < |t| - 1 ensures !(t[i] == SLASH && t[i + 1] == SLASH) { assert t[i] == s[i + 1] && t[i + 1] == s[i + 2]; }
      if t[0] == SLASH {
        var u := t[1..];
        assert t[1] == s[2] != SLASH by { assert s[1] == SLASH; }
        forall i | 0 <= i < |u| - 1 ensures !(u[i] == SLASH && u[i + 1] == SLASH) { assert u[i] == t[i + 1] && u[i + 1] == t[i + 2]; }
        SegmentsHoldSomething(u);
        assert Split(t) == [[]] + Split(u);
        assert Split(t)[1..] == Split(u) && [s[0]] + Split(t)[0] == [s[0]];
      } else {
        SegmentsHoldSomething(t);
      }
    }
  }

  /** The checks of one declared path, the last of them segment by segment. */
  method CheckPath(path: Text) returns (canonical: bool)
    ensures canonical <==> IsCanonicalPath(path)
  {
    hide HasLooseTilde;
    if |path| == 0 || |path| > MAX_PATH { return false; }
    if path[0] != SLASH || path[|path| - 1] == SLASH || HasEmptySegment(path) { return false; }
    var segments := Split(path[1..]);
    if |segments| > MAX_SEGMENTS { return false; }
    assert path == [SLASH] + path[1..];
    LooseAtTheFront(SLASH, path[1..]);
    LooseInASegment(path[1..]);
    AfterTheSlash(path);
    SegmentsHoldSomething(path[1..]);
    for k := 0 to |segments|
      invariant forall j :: 0 <= j < k ==> !HasLooseTilde(segments[j])
    {
      if segments[k] == [] || HasLooseTilde(segments[k]) { return false; }
    }
    canonical := true;
  }

  lemma AfterTheSlash(path: Text)
    requires |path| >= 1 && path[0] == SLASH && path[|path| - 1] != SLASH && !HasEmptySegment(path)
    ensures var s := path[1..]; s != [] && s[0] != SLASH && s[|s| - 1] != SLASH && !HasEmptySegment(s)
  {
    var s := path[1..];
    assert path[1] == s[0];
    forall i | 0 <= i < |s| - 1 ensures !(s[i] == SLASH && s[i + 1] == SLASH) { assert s[i] == path[i + 1] && s[i + 1] == path[i + 2]; }
  }

  /** None stands for the exception. */
  method CanonicalPromptInputPaths(paths: seq<Text>) returns (canonical: Option<seq<Text>>)
    ensures canonical.Some? <==> |paths| <= MAX_DECLARED && NoneTwice(paths) && forall i :: 0 <= i < |paths| ==> IsCanonicalPath(paths[i])
    ensures canonical.Some? ==> canonical.value == Sorted(paths)
  {
    hide IsCanonicalPath;
    if |paths| > MAX_DECLARED { return None; }
    var seen: set<Text> := {};
    for n := 0 to |paths|
      invariant forall path :: path in seen <==> path in paths[..n]
      invariant NoneTwice(paths[..n]) && forall i :: 0 <= i < n ==> IsCanonicalPath(paths[i])
    {
      var fine := CheckPath(paths[n]);
      if !fine { return None; }
      if paths[n] in seen {
        var k :| 0 <= k < n && paths[..n][k] == paths[n];
        assert paths[k] == paths[n];
        return None;
      }
      seen := seen + {paths[n]};
      assert paths[..n + 1] == paths[..n] + [paths[n]];
    }
    assert paths[..|paths|] == paths;
    canonical := Some(Sorted(paths));
  }

  /** The declaration is accepted exactly when it declares the template's own input
      paths, each once, in whatever order. */
  method ValidatePromptTemplateInputs(tokens: seq<Token>, inputPaths: seq<Text>, declared: seq<Text>) returns (canonical: Option<seq<Text>>)
    requires Ascending(inputPaths) && PathsOf(tokens, inputPaths)
    ensures canonical.Some? <==>
              && |declared| <= MAX_DECLARED && NoneTwice(declared) && (forall i :: 0 <= i < |declared| ==> IsCanonicalPath(declared[i]))
              && forall path :: path in declared <==> Selects(tokens, path)
    ensures canonical.Some? ==> canonical.value == inputPaths
  {
    hide IsCanonicalPath, Selects, Sorted;
    canonical := CanonicalPromptInputPaths(declared);
    if canonical.Some? {
      SortedIsSorted(declared);
      SameSetsSortAlike(declared, inputPaths);
      if canonical.value != inputPaths {
        canonical := None;
      }
    }
  }

  lemma SameSetsSortAlike(a: seq<Text>, b: seq<Text>)
    requires NoneTwice(a) && NoneTwice(b) && Ascending(b)
    ensures Sorted(a) == b <==> forall path :: path in a <==> path in b
  {
    SortedHoldsTheSame(a);
    SortedIsSorted(a);
    if forall path :: path in a <==> path in b {
      OnceEach(a);
      OnceEach(b);
      assert (set path | path in a) == set path | path in b;
      AscendingIsUnique(Sorted(a), b);
    }
  }

  lemma {:induction false} OnceEach(texts: seq<Text>)
    requires NoneTwice(texts)
    ensures multiset(texts) == multiset(set text | text in texts)
  {
    if texts != [] {
      var all, rest := set text | text in texts, set text | text in texts[1..];
      OnceEach(texts[1..]);
      assert texts == [texts[0]] + texts[1..];
      assert texts[0] !in rest;
      assert all == rest + {texts[0]};
      OneMoreElement(rest, texts[0]);
    }
  }

  lemma OneMoreElement(rest: set<Text>, text: Text)
    requires text !in rest
    ensures multiset(rest + {text}) == multiset(rest) + multiset{text}
  {
  }
}
