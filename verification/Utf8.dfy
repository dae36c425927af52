/**
 UTF-8 text as sections 3 and 4 of RFC 3629 define it: the validator of the layout file,
 the encoder of the core, and the truncation of display names.
 */
module Utf8 {
  import opened Bytes

  type CodePoint = x: nat | x < 0x1_0000_0000

  predicate IsSurrogate(c: CodePoint) {
    0xD800 <= c <= 0xDFFF
  }

  /** A scalar value other than NUL. */
  predicate IsScalar(c: CodePoint) {
    1 <= c <= 0x10FFFF && !IsSurrogate(c)
  }

  ghost predicate AllScalars(cs: seq<CodePoint>) {
    forall k :: 0 <= k < |cs| ==> IsScalar(cs[k])
  }

  /** The code point without its low six bits, by repeated subtraction. */
  function High(c: nat): nat {
    if c < 64 then 0 else 1 + High(c - 64)
  }

  /** The low six bits. */
  function Low(c: nat): (low: nat)
    ensures low < 64
  {
    if c < 64 then c else Low(c - 64)
  }

  lemma {:induction false} HighLow(c: nat)
    ensures c == 64 * High(c) + Low(c)
  {
    if c >= 64 {
      HighLow(c - 64);
    }
  }

  lemma HighLowAreDivMod(c: nat)
    ensures High(c) == c / 64 && Low(c) == c % 64
  {
    HighLow(c);
  }

  /** The continuation byte that holds the low six bits. */
  function Tail(c: nat): Byte {
    0x80 + Low(c)
  }

  /** A lead byte: the marker of the length, and the top bits under it, which always fit. */
  function Marked(marker: Byte, top: nat): Byte {
    if marker + top < 256 then marker + top else 255
  }

  /** The bytes of one code point. Beyond 0x10FFFF only four bits of the first field survive. */
  function Encode1(c: CodePoint): (s: seq<Byte>)
    ensures 1 <= |s| <= 4
  {
    if c < 0x80 then [c]
    else if c < 0x800 then [Marked(0xC0, High(c)), Tail(c)]
    else if c < 0x10000 then [Marked(0xE0, High(High(c))), Tail(High(c)), Tail(c)]
    else [Marked(0xF0, High(High(High(c))) % 16), Tail(High(High(c))), Tail(High(c)), Tail(c)]
  }

  function Encode(cs: seq<CodePoint>): seq<Byte> {
    if cs == [] then [] else Encode1(cs[0]) + Encode(cs[1..])
  }

  // ----- Well-formed text --------------------------------------------------------------

  predicate IsTail(b: Byte) {
    0x80 <= b <= 0xBF
  }

  /** The length of the well-formed character at the front of `s`, or 0. */
  function Lead(s: seq<Byte>): (n: nat)
    ensures n <= |s| && n <= 4
  {
    if s == [] then 0
    else if 1 <= s[0] <= 0x7F then 1
    else if 0xC2 <= s[0] <= 0xDF then
      if |s| >= 2 && IsTail(s[1]) then 2 else 0
    else if 0xE0 <= s[0] <= 0xEF then
      if |s| >= 3 && IsTail(s[1]) && IsTail(s[2])
        && (s[0] == 0xE0 ==> s[1] >= 0xA0) && (s[0] == 0xED ==> s[1] <= 0x9F) then 3 else 0
    else if 0xF0 <= s[0] <= 0xF4 then
      if |s| >= 4 && IsTail(s[1]) && IsTail(s[2]) && IsTail(s[3])
        && (s[0] == 0xF0 ==> s[1] >= 0x90) && (s[0] == 0xF4 ==> s[1] <= 0x8F) then 4 else 0
    else 0
  }

  predicate ValidText(s: seq<Byte>)
    decreases |s|
  {
    s == [] || (Lead(s) > 0 && ValidText(s[Lead(s)..]))
  }

  /** Six more bits after the high ones. */
  function Join(high: nat, tail: Byte): nat
    requires IsTail(tail)
  {
    if high == 0 then tail - 0x80 else 64 + Join(high - 1, tail)
  }

  lemma {:induction false} JoinIs(high: nat, tail: Byte)
    requires IsTail(tail)
    ensures Join(high, tail) == 64 * high + (tail - 0x80)
  {
    if high > 0 {
      JoinIs(high - 1, tail);
    }
  }

  lemma JoinSplits(high: nat, tail: Byte)
    requires IsTail(tail)
    ensures High(Join(high, tail)) == high && Tail(Join(high, tail)) == tail
  {
    JoinIs(high, tail);
    HighLow(Join(high, tail));
  }

  lemma SplitJoins(c: nat)
    ensures Join(High(c), Tail(c)) == c
  {
    JoinIs(High(c), Tail(c));
    HighLow(c);
  }

  /** The code point a well-formed character denotes. */
  function Value(s: seq<Byte>): CodePoint
    requires Lead(s) > 0
  {
    match Lead(s)
    case 1 => s[0]
    case 2 => JoinIs(s[0] - 0xC0, s[1]); Join(s[0] - 0xC0, s[1])
    case 3 =>
      var high := Join(s[0] - 0xE0, s[1]);
      JoinIs(s[0] - 0xE0, s[1]); JoinIs(high, s[2]);
      Join(high, s[2])
    case _ =>
      var top := Join(s[0] - 0xF0, s[1]);
      var high := Join(top, s[2]);
      JoinIs(s[0] - 0xF0, s[1]); JoinIs(top, s[2]); JoinIs(high, s[3]);
      Join(high, s[3])
  }

  function Decode(s: seq<Byte>): seq<CodePoint>
    requires ValidText(s)
    decreases |s|
  {
    if s == [] then [] else [Value(s)] + Decode(s[Lead(s)..])
  }

  method IsValidUtf8(s: seq<Byte>) returns (valid: bool)
    ensures valid <==> ValidText(s)
  {
    var index := 0;
    while index < |s|
      invariant 0 <= index <= |s|
      invariant ValidText(s) <==> ValidText(s[index..])
    {
      var rest := s[index..];
      assert forall n :: 0 <= n <= |rest| ==> rest[n..] == s[index + n..];
      var first := s[index];
      if first <= 0x7F {
        if first == 0 {
          return false;
        }
        index := index + 1;
        continue;
      }
      if 0xC2 <= first <= 0xDF {
        if |s| - index < 2 || !IsTail(s[index + 1]) {
          return false;
        }
        index := index + 2;
        continue;
      }
      if 0xE0 <= first <= 0xEF {
        if |s| - index < 3 {
          return false;
        }
        var second, third := s[index + 1], s[index + 2];
        if !IsTail(second) || !IsTail(third) {
          return false;
        }
        if first == 0xE0 && second < 0xA0 {
          return false;
        }
        if first == 0xED && second > 0x9F {
          return false;
        }
        index := index + 3;
        continue;
      }
      if 0xF0 <= first <= 0xF4 {
        if |s| - index < 4 {
          return false;
        }
        var second, third, fourth := s[index + 1], s[index + 2], s[index + 3];
        if !IsTail(second) || !IsTail(third) || !IsTail(fourth) {
          return false;
        }
        if first == 0xF0 && second < 0x90 {
          return false;
        }
        if first == 0xF4 && second > 0x8F {
          return false;
        }
        index := index + 4;
        continue;
      }
      return false;
    }
    return true;
  }

  // ----- Encoding and decoding are inverse ---------------------------------------------

  /** The fields of a three byte code point stay within the grammar. */
  lemma ThreeFields(c: CodePoint, h: nat, hh: nat)
    requires 0x800 <= c < 0x10000 && !IsSurrogate(c) && h == High(c) && hh == High(h)
    ensures hh <= 15 && (hh == 0 ==> Tail(h) >= 0xA0) && (hh == 13 ==> Tail(h) <= 0x9F)
  {
    HighLow(c);
    HighLow(h);
  }

  lemma FourFields(c: CodePoint, h: nat, hh: nat, top: nat)
    requires 0x10000 <= c <= 0x10FFFF && h == High(c) && hh == High(h) && top == High(hh)
    ensures top <= 4 && (top == 0 ==> Tail(hh) >= 0x90) && (top == 4 ==> Tail(hh) <= 0x8F)
  {
    HighLow(c);
    HighLow(h);
    HighLow(hh);
  }

  lemma ThreeRoundTrip(c: CodePoint, s: seq<Byte>)
    requires 0x800 <= c < 0x10000 && !IsSurrogate(c) && |s| >= 3 && s[..3] == Encode1(c)
    ensures Lead(s) == 3 && Value(s) == c
  {
    var h, hh := High(c), High(High(c));
    ThreeFields(c, h, hh);
    assert s[0] == s[..3][0] && s[1] == s[..3][1] && s[2] == s[..3][2];
    SplitJoins(c);
    SplitJoins(h);
  }

  lemma FourReads(s: seq<Byte>, top: nat)
    requires |s| >= 4 && top <= 4 && s[0] == 0xF0 + top && IsTail(s[1]) && IsTail(s[2]) && IsTail(s[3])
    requires (top == 0 ==> s[1] >= 0x90) && (top == 4 ==> s[1] <= 0x8F)
    ensures Lead(s) == 4 && Value(s) == Join(Join(Join(top, s[1]), s[2]), s[3])
  {
  }

  lemma FourRoundTrip(c: CodePoint, s: seq<Byte>)
    requires 0x10000 <= c <= 0x10FFFF && |s| >= 4 && s[..4] == Encode1(c)
    ensures Lead(s) == 4 && Value(s) == c
  {
    var h, hh, top := High(c), High(High(c)), High(High(High(c)));
    FourFields(c, h, hh, top);
    SplitJoins(c);
    SplitJoins(h);
    SplitJoins(hh);
    assert s[..4] == [Marked(0xF0, top % 16), Tail(hh), Tail(h), Tail(c)];
    assert s[0] == s[..4][0] && s[1] == s[..4][1] && s[2] == s[..4][2] && s[3] == s[..4][3];
    FourReads(s, top);
  }

  lemma CharRoundTrip(c: CodePoint, rest: seq<Byte>)
    requires IsScalar(c)
    ensures Lead(Encode1(c) + rest) == |Encode1(c)| && Value(Encode1(c) + rest) == c
  {
    var s := Encode1(c) + rest;
    if 0x80 <= c < 0x800 {
      HighLow(c);
      SplitJoins(c);
    } else if 0x800 <= c < 0x10000 {
      ThreeRoundTrip(c, s);
    } else if 0x10000 <= c {
      FourRoundTrip(c, s);
    }
  }

  lemma TwoBytes(a: Byte, b: Byte)
    requires 0xC2 <= a <= 0xDF && IsTail(b)
    ensures var v := Join(a - 0xC0, b); 0x80 <= v < 0x800 && Encode1(v) == [a, b]
  {
    JoinIs(a - 0xC0, b);
    JoinSplits(a - 0xC0, b);
  }

  lemma JoinRange(high: nat, tail: Byte, low: nat, top: nat)
    requires IsTail(tail) && low <= high < top
    ensures 64 * low <= Join(high, tail) < 64 * top
  {
    JoinIs(high, tail);
  }

  lemma ThreeBytesEncode(v: CodePoint, high: nat, a: Byte, b: Byte, c: Byte)
    requires 0x800 <= v < 0x10000 && High(v) == high && Tail(v) == c && High(high) == a - 0xE0 && Tail(high) == b
    ensures Encode1(v) == [a, b, c]
  {
  }

  lemma FourBytesEncode(v: CodePoint, high: nat, top: nat, a: Byte, b: Byte, c: Byte, d: Byte)
    requires 0x10000 <= v <= 0x10FFFF && High(v) == high && Tail(v) == d && High(high) == top && Tail(high) == c
    requires High(top) == a - 0xF0 && Tail(top) == b && 0xF0 <= a <= 0xF4
    ensures Encode1(v) == [a, b, c, d]
  {
  }

  lemma ThreeBytesRange(a: Byte, b: Byte, c: Byte)
    requires 0xE0 <= a <= 0xEF && IsTail(b) && IsTail(c) && (a == 0xE0 ==> b >= 0xA0) && (a == 0xED ==> b <= 0x9F)
    ensures var v := Join(Join(a - 0xE0, b), c); 0x800 <= v < 0x10000 && !(0xD800 <= v <= 0xDFFF)
  {
    var high := Join(a - 0xE0, b);
    JoinIs(a - 0xE0, b);
    if high < 864 {
      JoinRange(high, c, 32, 864);
    } else {
      JoinRange(high, c, 896, 1024);
    }
  }

  lemma ThreeBytes(a: Byte, b: Byte, c: Byte)
    requires 0xE0 <= a <= 0xEF && IsTail(b) && IsTail(c) && (a == 0xE0 ==> b >= 0xA0) && (a == 0xED ==> b <= 0x9F)
    ensures var v := Join(Join(a - 0xE0, b), c); 0x800 <= v < 0x10000 && IsScalar(v) && Encode1(v) == [a, b, c]
  {
    var high := Join(a - 0xE0, b);
    ThreeBytesRange(a, b, c);
    JoinSplits(a - 0xE0, b);
    JoinSplits(high, c);
    ThreeBytesEncode(Join(high, c), high, a, b, c);
  }

  lemma FourBytesRange(a: Byte, b: Byte, c: Byte, d: Byte)
    requires 0xF0 <= a <= 0xF4 && IsTail(b) && IsTail(c) && IsTail(d) && (a == 0xF0 ==> b >= 0x90)
    requires (a == 0xF4 ==> b <= 0x8F)
    ensures 0x10000 <= Join(Join(Join(a - 0xF0, b), c), d) <= 0x10FFFF
  {
    var top := Join(a - 0xF0, b);
    JoinIs(a - 0xF0, b);
    JoinRange(top, c, 16, 272);
    JoinRange(Join(top, c), d, 1024, 17408);
  }

  lemma FourBytes(a: Byte, b: Byte, c: Byte, d: Byte)
    requires 0xF0 <= a <= 0xF4 && IsTail(b) && IsTail(c) && IsTail(d) && (a == 0xF0 ==> b >= 0x90)
    requires (a == 0xF4 ==> b <= 0x8F)
    ensures var v := Join(Join(Join(a - 0xF0, b), c), d); 0x10000 <= v <= 0x10FFFF && Encode1(v) == [a, b, c, d]
  {
    var top := Join(a - 0xF0, b);
    var high := Join(top, c);
    FourBytesRange(a, b, c, d);
    JoinSplits(a - 0xF0, b);
    JoinSplits(top, c);
    JoinSplits(high, d);
    FourBytesEncode(Join(high, d), high, top, a, b, c, d);
  }

  lemma CharIsEncoded(s: seq<Byte>)
    requires Lead(s) > 0
    ensures IsScalar(Value(s)) && Encode1(Value(s)) == s[..Lead(s)]
  {
    match Lead(s)
    case 1 =>
    case 2 => TwoBytes(s[0], s[1]);
    case 3 => ThreeBytes(s[0], s[1], s[2]);
    case _ => FourBytes(s[0], s[1], s[2], s[3]);
  }

  /** Every sequence of scalars encodes to valid text that decodes to itself. */
  lemma {:induction false} DecodeEncode(cs: seq<CodePoint>)
    requires AllScalars(cs)
    ensures ValidText(Encode(cs)) && Decode(Encode(cs)) == cs
  {
    if cs != [] {
      var rest := Encode(cs[1..]);
      DecodeEncode(cs[1..]);
      CharRoundTrip(cs[0], rest);
      assert Encode(cs)[|Encode1(cs[0])|..] == rest;
      assert cs == [cs[0]] + cs[1..];
    }
  }

  /** Every valid text is the encoding of the scalars it decodes to. */
  lemma {:induction false} EncodeDecode(s: seq<Byte>)
    requires ValidText(s)
    ensures AllScalars(Decode(s)) && Encode(Decode(s)) == s
    decreases |s|
  {
    if s != [] {
      var n := Lead(s);
      EncodeDecode(s[n..]);
      CharIsEncoded(s);
      assert Decode(s) == [Value(s)] + Decode(s[n..]);
      assert Decode(s)[1..] == Decode(s[n..]);
      assert s == s[..n] + s[n..];
    }
  }

  /** The validator accepts exactly the encodings of sequences of non-NUL scalar values. */
  lemma ValidIffEncoding(s: seq<Byte>)
    ensures ValidText(s) <==> exists cs :: AllScalars(cs) && Encode(cs) == s
  {
    if ValidText(s) {
      EncodeDecode(s);
    }
    forall cs | AllScalars(cs) && Encode(cs) == s
      ensures ValidText(s)
    {
      DecodeEncode(cs);
    }
  }

  // ----- Wide strings ------------------------------------------------------------------

  /** Surrogates are dropped. */
  function Keep(ws: seq<CodePoint>): seq<CodePoint> {
    if ws == [] then []
    else
      var kept, last := Keep(ws[..|ws| - 1]), ws[|ws| - 1];
      if IsSurrogate(last) then kept else kept + [last]
  }

  /** Exactly the surrogates go, and the rest keeps its order. */
  lemma {:induction false} KeepSplits(ws: seq<CodePoint>, vs: seq<CodePoint>)
    ensures Keep(ws + vs) == Keep(ws) + Keep(vs)
    ensures |ws| == 1 ==> Keep(ws) == if 0xD800 <= ws[0] <= 0xDFFF then [] else ws
  {
    if vs == [] {
      assert ws + vs == ws;
    } else {
      var init := vs[..|vs| - 1];
      assert (ws + vs)[..|ws + vs| - 1] == ws + init;
      KeepSplits(ws, init);
    }
  }

  lemma ThreeSplits(c: nat)
    ensures c == 262144 * High(High(High(c))) + 4096 * Low(High(High(c))) + 64 * Low(High(c)) + Low(c)
  {
    HighLow(c);
    HighLow(High(c));
    HighLow(High(High(c)));
  }

  /** Four fields of six bits, the first one on top. */
  function Joined(a: int, b: int, c: int, d: int): int {
    262144 * a + 4096 * b + 64 * c + d
  }

  /** Whatever number is taken for a code point, its low 22 bits are in the four bytes. */
  lemma FourBytesHold(c: CodePoint)
    requires c >= 0x10000
    ensures var s := Encode1(c);
      && |s| == 4 && s[0] >= 0xF0 && IsTail(s[1]) && IsTail(s[2]) && IsTail(s[3])
      && Joined(s[0] - 0xF0, s[1] - 0x80, s[2] - 0x80, s[3] - 0x80) == c % 4194304
  {
    var top := High(High(High(c)));
    ThreeSplits(c);
    assert top == 16 * (top / 16) + top % 16;
  }

  lemma {:induction false} EncodeAppend(cs: seq<CodePoint>, c: CodePoint)
    ensures Encode(cs + [c]) == Encode(cs) + Encode1(c)
  {
    if cs == [] {
      assert [c][1..] == [];
    } else {
      assert (cs + [c])[1..] == cs[1..] + [c];
      EncodeAppend(cs[1..], c);
    }
  }

  lemma {:induction false} KeepPrefix(ws: seq<CodePoint>, n: nat)
    requires n <= |ws|
    ensures Keep(ws[..n]) <= Keep(ws)
    decreases |ws|
  {
    if n < |ws| {
      var init := ws[..|ws| - 1];
      assert ws[..n] == init[..n];
      KeepPrefix(init, n);
    } else {
      assert ws[..n] == ws;
    }
  }

  /** `k` code points fit a buffer of `cap` bytes with its terminator, and no more do. */
  ghost predicate FitsMost(cs: seq<CodePoint>, cap: nat, k: nat) {
    && k <= |cs| && |Encode(cs[..k])| < cap
    && (k < |cs| ==> |Encode(cs[..k + 1])| >= cap)
  }

  method WideToUtf8(ws: seq<CodePoint>, dst: array<Byte>) returns (ghost k: nat)
    modifies dst
    ensures dst.Length > 0 ==> FitsMost(Keep(ws), dst.Length, k)
    ensures dst.Length > 0 ==> var text := Encode(Keep(ws)[..k]); dst[..] == Filled(old(dst[..]), text + [0])
  {
    k := 0;
    if dst.Length == 0 {
      return;
    }
    ghost var before := dst[..];
    var out, i := 0, 0;
    while i < |ws|
      invariant 0 <= i <= |ws|
      invariant out == |Encode(Keep(ws[..i]))| < dst.Length
      invariant dst[..] == Filled(before, Encode(Keep(ws[..i])))
    {
      var cp := ws[i];
      assert ws[..i + 1][..i] == ws[..i];
      if !IsSurrogate(cp) {
        EncodeAppend(Keep(ws[..i]), cp);
        assert Keep(ws[..i + 1]) == Keep(ws[..i]) + [cp];
        var bytes := Encode1(cp);
        if out + |bytes| >= dst.Length {
          KeepPrefix(ws, i + 1);
          assert Keep(ws)[..|Keep(ws[..i])| + 1] == Keep(ws[..i + 1]);
          break;
        }
        Copy(dst, out, bytes);
        FillMore(before, Encode(Keep(ws[..i])), bytes);
        out := out + |bytes|;
      }
      i := i + 1;
    }
    k := |Keep(ws[..i])|;
    KeepPrefix(ws, i);
    assert Keep(ws)[..k] == Keep(ws[..i]);
    assert i == |ws| ==> ws[..i] == ws;
    Copy(dst, out, [0]);
    FillMore(before, Encode(Keep(ws[..i])), [0]);
  }

  lemma {:induction false} EncodeGrows(cs: seq<CodePoint>, j: nat, k: nat)
    requires j <= k <= |cs|
    ensures |Encode(cs[..j])| + (k - j) <= |Encode(cs[..k])|
    decreases k - j
  {
    if j < k {
      EncodeGrows(cs, j, k - 1);
      assert cs[..k] == cs[..k - 1] + [cs[k - 1]];
      EncodeAppend(cs[..k - 1], cs[k - 1]);
    }
  }

  ghost predicate Encodable(ws: seq<CodePoint>) {
    forall k :: 0 <= k < |ws| ==> 1 <= ws[k] <= 0x10FFFF
  }

  lemma {:induction false} KeepsScalars(ws: seq<CodePoint>)
    requires Encodable(ws)
    ensures AllScalars(Keep(ws))
  {
    if ws != [] {
      KeepsScalars(ws[..|ws| - 1]);
    }
  }

  /** The emitted text is valid, decodes to a prefix of what was kept, and is the longest such text that fits. */
  lemma WideTextIsLongest(ws: seq<CodePoint>, cap: nat, k: nat, j: nat)
    requires Encodable(ws) && FitsMost(Keep(ws), cap, k)
    ensures ValidText(Encode(Keep(ws)[..k])) && Decode(Encode(Keep(ws)[..k])) == Keep(ws)[..k]
    ensures j <= |Keep(ws)| && |Encode(Keep(ws)[..j])| < cap ==> j <= k
  {
    KeepsScalars(ws);
    DecodeEncode(Keep(ws)[..k]);
    if k < j <= |Keep(ws)| {
      EncodeGrows(Keep(ws), k + 1, j);
    }
  }

  // ----- Truncating display names ------------------------------------------------------

  const NAME_LIMIT: nat := 64

  /** The last place at or before `size` that does not split a character. */
  function CutPoint(name: seq<Byte>, size: nat): (n: nat)
    requires size <= |name|
    ensures n <= size && (n == |name| || n == 0 || !IsTail(name[n]))
    ensures forall m :: n < m <= size ==> m < |name| && IsTail(name[m])
  {
    if 0 < size < |name| && IsTail(name[size]) then CutPoint(name, size - 1) else size
  }

  method BoundedName(name: seq<Byte>) returns (r: seq<Byte>)
    ensures var n := CutPoint(name, if |name| < 64 then |name| else 64);
      r == if n == 0 then [63] else name[..n]
  {
    var size := if |name| < NAME_LIMIT then |name| else NAME_LIMIT;
    ghost var limit := size;
    while size < |name| && size > 0 && 0x80 <= name[size] < 0xC0
      invariant 0 <= size <= limit
      invariant CutPoint(name, size) == CutPoint(name, limit)
      decreases size
    {
      size := size - 1;
    }
    r := if size > 0 then name[..size] else [63];
  }

  lemma LeadOfPrefix(s: seq<Byte>, n: nat)
    requires Lead(s) > 0 && n <= |s|
    ensures Lead(s[..n]) == if n < Lead(s) then 0 else Lead(s)
    ensures forall m :: 0 < m < Lead(s) ==> IsTail(s[m])
    ensures !IsTail(s[0])
  {
  }

  /** In valid text the places between characters are exactly those not followed by a tail byte. */
  lemma {:induction false} BoundaryIff(s: seq<Byte>, n: nat)
    requires ValidText(s) && n <= |s|
    ensures ValidText(s[..n]) <==> n == |s| || !IsTail(s[n])
    decreases |s|
  {
    if s == [] {
      assert s[..n] == s;
    } else {
      var lead := Lead(s);
      LeadOfPrefix(s, n);
      if n >= lead {
        BoundaryIff(s[lead..], n - lead);
        assert s[lead..][..n - lead] == s[..n][lead..];
      }
    }
  }

  /** Text cut at a character boundary keeps its first character: the limit exceeds any character. */
  lemma CutIsPositive(s: seq<Byte>, size: nat)
    requires ValidText(s) && s != [] && (size == |s| || 4 <= size < |s|)
    ensures CutPoint(s, size) > 0
  {
    var lead := Lead(s);
    if lead < |s| {
      LeadOfPrefix(s, lead);
      assert s[lead..] != [];
      LeadOfPrefix(s[lead..], 0);
      assert !IsTail(s[lead]);
    }
  }

  /**
   A bounded name of valid text is its longest valid prefix of at most 64 bytes; only an
   empty name becomes a question mark.
   */
  lemma BoundedNameIsLongest(name: seq<Byte>, m: nat)
    requires ValidText(name)
    ensures var limit := if |name| < 64 then |name| else 64; var n := CutPoint(name, limit);
      && n <= 64 && ValidText(name[..n]) && (n == 0 <==> name == [])
      && (m <= limit && ValidText(name[..m]) ==> m <= n)
  {
    var limit := if |name| < NAME_LIMIT then |name| else NAME_LIMIT;
    var n := CutPoint(name, limit);
    if name != [] {
      CutIsPositive(name, limit);
    }
    BoundaryIff(name, n);
    if m <= limit {
      BoundaryIff(name, m);
    }
  }
}
