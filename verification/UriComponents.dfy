/** Percent-encoding of a text as the platform's `encodeURIComponent` does it:
    UTF-8, every byte of an unreserved character kept, every other byte escaped. */
module UriComponents {
  import opened CodeUnits
  import opened Options

  const PERCENT: Unit := 37
  const SEPARATOR: Unit := 47

  /** Letters, digits and - _ . ! ~ * ' ( ). */
  predicate IsUnreserved(c: int) {
    65 <= c <= 90 || 97 <= c <= 122 || 48 <= c <= 57 || c in {45, 95, 46, 33, 126, 42, 39, 40, 41}
  }

  type Point = c: int | 0 <= c < 0x11_0000
  type Byte = b: int | 0 <= b < 256

  /** The characters of a text; None when a surrogate stands alone. */
  function CodePoints(s: Text): Option<seq<Point>> {
    if s == [] then Some([])
    else if IsLead(s[0]) then
      if |s| == 1 || !IsTrail(s[1]) then None
      else
        var rest := CodePoints(s[2..]);
        if rest.None? then None else Some([0x1_0000 + (s[0] - 0xD800) * 1024 + (s[1] - 0xDC00)] + rest.value)
    else if IsTrail(s[0]) then None
    else
      var rest := CodePoints(s[1..]);
      if rest.None? then None else Some([s[0]] + rest.value)
  }

  function Utf8(c: Point): (bytes: seq<Byte>)
    ensures 1 <= |bytes| <= 4
  {
    if c < 0x80 then [c]
    else if c < 0x800 then [0xC0 + c / 64, 0x80 + c % 64]
    else if c < 0x1_0000 then [0xE0 + c / 4096, 0x80 + c / 64 % 64, 0x80 + c % 64]
    else [0xF0 + c / 262144, 0x80 + c / 4096 % 64, 0x80 + c / 64 % 64, 0x80 + c % 64]
  }

  function HexUpper(n: int): (u: Unit)
    requires 0 <= n < 16
    ensures (48 <= u <= 57 || 65 <= u <= 70) && n == (if u <= 57 then u - 48 else u - 55)
  {
    if n < 10 then 48 + n else 55 + n
  }

  function EscapedByte(b: Byte): (t: Text)
    ensures |t| == 3 && t[0] == PERCENT && Free(t)
  {
    [PERCENT, HexUpper(b / 16), HexUpper(b % 16)]
  }

  function Escaped(bytes: seq<Byte>): Text { if bytes == [] then [] else EscapedByte(bytes[0]) + Escaped(bytes[1..]) }

  function Chunk(c: Point): Text { if IsUnreserved(c) then [c] else Escaped(Utf8(c)) }

  function Chunks(points: seq<Point>): Text { if points == [] then [] else Chunk(points[0]) + Chunks(points[1..]) }

  /** None stands for the exception a lone surrogate raises. */
  function Encode(s: Text): Option<Text> {
    var points := CodePoints(s);
    if points.None? then None else Some(Chunks(points.value))
  }

  // ----- no escaped text holds a separator

  predicate Free(t: Text) { forall i :: 0 <= i < |t| ==> t[i] != SEPARATOR }

  lemma {:induction false} EscapedIsFree(bytes: seq<Byte>)
    ensures Free(Escaped(bytes))
  {
    if bytes != [] {
      EscapedIsFree(bytes[1..]);
    }
  }

  lemma {:induction false} ChunksAreFree(points: seq<Point>)
    ensures Free(Chunks(points))
  {
    if points != [] {
      EscapedIsFree(Utf8(points[0]));
      ChunksAreFree(points[1..]);
    }
  }

  lemma EncodedIsFree(s: Text)
    ensures Encode(s).Some? ==> Free(Encode(s).value)
  {
    if Encode(s).Some? { ChunksAreFree(CodePoints(s).value); }
  }

  // ----- encoding is injective

  lemma {:induction false} EscapedLength(bytes: seq<Byte>)
    ensures |Escaped(bytes)| == 3 * |bytes|
  {
    if bytes != [] { EscapedLength(bytes[1..]); }
  }

  lemma FirstByteIsKept(a: seq<Byte>, b: seq<Byte>, x: Text, y: Text)
    requires a != [] && b != [] && Escaped(a) + x == Escaped(b) + y
    ensures a[0] == b[0] && Escaped(a[1..]) + x == Escaped(b[1..]) + y
  {
    hide EscapedByte, Escaped;
    EscapedUnfolds(a, x);
    EscapedUnfolds(b, y);
    EqualPrefixes(EscapedByte(a[0]), EscapedByte(b[0]), Escaped(a[1..]) + x, Escaped(b[1..]) + y);
    EscapedByteIsKept(a[0], b[0]);
  }

  lemma EscapedUnfolds(bytes: seq<Byte>, x: Text)
    requires bytes != []
    ensures Escaped(bytes) + x == EscapedByte(bytes[0]) + (Escaped(bytes[1..]) + x)
  {
    hide EscapedByte;
  }

  lemma EqualPrefixes(p: Text, q: Text, x: Text, y: Text)
    requires |p| == |q| && p + x == q + y
    ensures p == q && x == y
  {
    assert (p + x)[..|p|] == p && (q + y)[..|q|] == q;
    assert (p + x)[|p|..] == x && (q + y)[|q|..] == y;
  }

  lemma EscapedByteIsKept(a: Byte, b: Byte)
    requires EscapedByte(a) == EscapedByte(b)
    ensures a == b
  {
    hide HexUpper;
    var s, t := EscapedByte(a), EscapedByte(b);
    assert s[1] == t[1] && s[2] == t[2];
  }

  lemma {:induction false} EscapedIsKept(a: seq<Byte>, b: seq<Byte>, x: Text, y: Text)
    requires |a| == |b| && Escaped(a) + x == Escaped(b) + y
    ensures a == b && x == y
  {
    if a == [] {
      assert Escaped(a) + x == x && Escaped(b) + y == y;
    } else {
      FirstByteIsKept(a, b, x, y);
      EscapedIsKept(a[1..], b[1..], x, y);
      assert a == [a[0]] + a[1..] && b == [b[0]] + b[1..];
    }
  }

  /** The first byte tells how many follow. */
  lemma FirstByteTellsLength(c: Point, d: Point)
    requires Utf8(c)[0] == Utf8(d)[0]
    ensures |Utf8(c)| == |Utf8(d)|
  {
  }

  lemma TwoDigits(c: nat, d: nat)
    requires c / 64 == d / 64 && c % 64 == d % 64
    ensures c == d
  {
  }

  lemma Utf8IsInjective(c: Point, d: Point)
    requires Utf8(c) == Utf8(d)
    ensures c == d
  {
    var u, w := Utf8(c), Utf8(d);
    assert |u| == |w| && u[0] == w[0];
    FirstByteTellsLength(c, d);
    if |u| >= 2 {
      assert u[|u| - 1] == w[|u| - 1];
      assert c % 64 == d % 64;
      if |u| >= 3 {
        assert u[|u| - 2] == w[|u| - 2];
        assert c / 64 % 64 == d / 64 % 64;
        if |u| == 4 {
          assert u[1] == w[1];
          assert c / 4096 % 64 == d / 4096 % 64;
          assert c / 262144 == (c / 4096) / 64 && d / 262144 == (d / 4096) / 64;
          TwoDigits(c / 4096, d / 4096);
        }
        assert c / 4096 == (c / 64) / 64 && d / 4096 == (d / 64) / 64;
        TwoDigits(c / 64, d / 64);
      }
      TwoDigits(c, d);
    }
  }

  lemma ChunkStarts(c: Point, x: Text)
    ensures Chunk(c) != [] && (Chunk(c) + x)[0] == if IsUnreserved(c) then c else PERCENT
  {
    hide EscapedByte;
    if !IsUnreserved(c) { assert Escaped(Utf8(c)) == EscapedByte(Utf8(c)[0]) + Escaped(Utf8(c)[1..]); }
  }

  lemma ChunkIsKept(c: Point, d: Point, x: Text, y: Text)
    requires Chunk(c) + x == Chunk(d) + y
    ensures c == d && x == y
  {
    hide Utf8, Escaped, HexUpper;
    ChunkStarts(c, x);
    ChunkStarts(d, y);
    if IsUnreserved(c) {
      assert (Chunk(c) + x)[1..] == x && (Chunk(d) + y)[1..] == y;
    } else {
      FirstByteIsKept(Utf8(c), Utf8(d), x, y);
      FirstByteTellsLength(c, d);
      EscapedIsKept(Utf8(c), Utf8(d), x, y);
      Utf8IsInjective(c, d);
    }
  }

  lemma ChunkIsNotEmpty(c: Point)
    ensures Chunk(c) != []
  {
    EscapedLength(Utf8(c));
  }

  lemma {:induction false} ChunksAreInjective(a: seq<Point>, b: seq<Point>)
    requires Chunks(a) == Chunks(b)
    ensures a == b
  {
    hide Chunk;
    if a == [] || b == [] {
      if a != [] { ChunkIsNotEmpty(a[0]); }
      if b != [] { ChunkIsNotEmpty(b[0]); }
    } else {
      ChunkIsKept(a[0], b[0], Chunks(a[1..]), Chunks(b[1..]));
      ChunksAreInjective(a[1..], b[1..]);
      assert a == [a[0]] + a[1..] && b == [b[0]] + b[1..];
    }
  }

  lemma {:induction false} CodePointsAreInjective(s: Text, t: Text)
    requires CodePoints(s).Some? && CodePoints(s) == CodePoints(t)
    ensures s == t
  {
    if s == [] || t == [] {
    } else {
      var p, q := CodePoints(s).value, CodePoints(t).value;
      assert p[0] == q[0];
      if IsLead(s[0]) {
        assert q[0] >= 0x1_0000;
        assert s == [s[0], s[1]] + s[2..] && t == [t[0], t[1]] + t[2..];
        assert s[0] == t[0] && s[1] == t[1];
        assert p[1..] == CodePoints(s[2..]).value && q[1..] == CodePoints(t[2..]).value;
        CodePointsAreInjective(s[2..], t[2..]);
      } else {
        assert !IsLead(t[0]);
        assert s == [s[0]] + s[1..] && t == [t[0]] + t[1..];
        assert p[1..] == CodePoints(s[1..]).value && q[1..] == CodePoints(t[1..]).value;
        CodePointsAreInjective(s[1..], t[1..]);
      }
    }
  }

  /** Distinct texts never encode alike. */
  lemma EncodeIsInjective(s: Text, t: Text)
    requires Encode(s).Some? && Encode(s) == Encode(t)
    ensures s == t
  {
    ChunksAreInjective(CodePoints(s).value, CodePoints(t).value);
    CodePointsAreInjective(s, t);
  }

  /** A separator ends the first part whatever follows. */
  lemma {:induction false} PartsAreKept(a: Text, b: Text, x: Text, y: Text)
    requires Free(a) && Free(b) && a + ([SEPARATOR] + x) == b + ([SEPARATOR] + y)
    ensures a == b && x == y
  {
    var s, t := a + ([SEPARATOR] + x), b + ([SEPARATOR] + y);
    if a == [] || b == [] {
      assert s[0] == t[0];
      assert a == b;
      assert s[1..] == x && t[1..] == y;
    } else {
      assert s[0] == a[0] && t[0] == b[0];
      assert s[1..] == a[1..] + ([SEPARATOR] + x) && t[1..] == b[1..] + ([SEPARATOR] + y);
      PartsAreKept(a[1..], b[1..], x, y);
      assert a == [a[0]] + a[1..] && b == [b[0]] + b[1..];
    }
  }
}
