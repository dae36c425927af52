/** Bytes, little-endian integers and writes into a caller's buffer. */
module Bytes {

  type Byte = x: nat | x < 256

  const U32: nat := 0x1_0000_0000
  const U64: nat := 0x1_0000_0000_0000_0000

  function Zeros(n: nat): (s: seq<Byte>)
    ensures |s| == n && forall k :: 0 <= k < n ==> s[k] == 0
  {
    seq(n, _ => 0)
  }

  /** 256 to the n. */
  function Power(n: nat): (p: nat)
    ensures p > 0
  {
    if n == 0 then 1 else 256 * Power(n - 1)
  }

  /** The n low bytes of v, least significant first. */
  function Little(v: nat, n: nat): (s: seq<Byte>)
    ensures |s| == n
    decreases n
  {
    if n == 0 then [] else [v % 256] + Little(v / 256, n - 1)
  }

  /** The integer a little-endian byte string denotes. */
  function Number(s: seq<Byte>): nat {
    if s == [] then 0 else s[0] + 256 * Number(s[1..])
  }

  lemma {:induction false} NumberOfLittle(v: nat, n: nat)
    requires v < Power(n)
    ensures Number(Little(v, n)) == v
    decreases n
  {
    if n > 0 {
      assert v / 256 < Power(n - 1);
      NumberOfLittle(v / 256, n - 1);
      assert Little(v, n)[1..] == Little(v / 256, n - 1);
    }
  }

  lemma {:induction false} LittleOfNumber(s: seq<Byte>)
    ensures Number(s) < Power(|s|) && Little(Number(s), |s|) == s
  {
    if s != [] {
      LittleOfNumber(s[1..]);
      assert Number(s) % 256 == s[0] && Number(s) / 256 == Number(s[1..]);
      assert s == [s[0]] + s[1..];
    }
  }

  lemma Powers()
    ensures Power(4) == U32 && Power(8) == U64
  {
    assert Power(2) == 65536 && Power(4) == U32;
    assert Power(6) == 65536 * Power(4) && Power(8) == 65536 * Power(6);
  }

  /** v shifted right by n bytes. */
  function Shift(v: nat, n: nat): nat
    decreases n
  {
    if n == 0 then v else Shift(v / 256, n - 1)
  }

  lemma {:induction false} LittleAppends(v: nat, n: nat)
    ensures Little(v, n + 1) == Little(v, n) + [Shift(v, n) % 256]
    decreases n
  {
    if n > 0 {
      LittleAppends(v / 256, n - 1);
    }
  }

  // ----- Writing into a buffer ---------------------------------------------------------

  /** `s` with `src` written over it at `at`. */
  function Splice(s: seq<Byte>, at: nat, src: seq<Byte>): (r: seq<Byte>)
    requires at + |src| <= |s|
    ensures |r| == |s|
  {
    s[..at] + src + s[at + |src|..]
  }

  /** The buffer that started as `s` and has been overwritten up to the length of `done`. */
  function Filled(s: seq<Byte>, done: seq<Byte>): (r: seq<Byte>)
    requires |done| <= |s|
    ensures |r| == |s|
  {
    done + s[|done|..]
  }

  lemma FillMore(s: seq<Byte>, done: seq<Byte>, src: seq<Byte>)
    requires |done| + |src| <= |s|
    ensures Splice(Filled(s, done), |done|, src) == Filled(s, done + src)
  {
    var f := Filled(s, done);
    assert f[..|done|] == done;
    assert f[|done| + |src|..] == s[|done| + |src|..];
  }

  lemma FillSkip(s: seq<Byte>, done: seq<Byte>, k: nat)
    requires |done| <= k <= |s|
    ensures Filled(s, done) == Filled(s, done + s[|done|..k])
  {
  }

  /** Overwriting a field inside the part already filled. */
  lemma FillPatch(s: seq<Byte>, a: seq<Byte>, hole: seq<Byte>, b: seq<Byte>, src: seq<Byte>)
    requires |a| + |hole| + |b| <= |s| && |src| == |hole|
    ensures Splice(Filled(s, a + hole + b), |a|, src) == Filled(s, a + src + b)
  {
    var f := Filled(s, a + hole + b);
    assert f[..|a|] == a;
    assert f[|a| + |src|..] == b + s[|a + hole + b|..];
  }

  /** Copy `src` into `out` at `at`. */
  method Copy(out: array<Byte>, at: nat, src: seq<Byte>)
    requires at + |src| <= out.Length
    modifies out
    ensures out[..] == Splice(old(out[..]), at, src)
  {
    var i := 0;
    while i < |src|
      invariant 0 <= i <= |src|
      invariant forall k :: at <= k < at + i ==> out[k] == src[k - at]
      invariant forall k :: 0 <= k < out.Length && !(at <= k < at + i) ==> out[k] == old(out[k])
    {
      out[at + i] := src[i];
      i := i + 1;
    }
  }

  /** Store the n low bytes of v at `at`, least significant first. */
  method PutLittle(out: array<Byte>, at: nat, v: nat, n: nat)
    requires at + n <= out.Length
    modifies out
    ensures out[..] == Splice(old(out[..]), at, Little(v, n))
  {
    var i := 0;
    while i < n
      invariant 0 <= i <= n
      invariant forall k :: at <= k < at + i ==> out[k] == Little(v, i)[k - at]
      invariant forall k :: 0 <= k < out.Length && !(at <= k < at + i) ==> out[k] == old(out[k])
    {
      LittleAppends(v, i);
      out[at + i] := Shift(v, i) % 256;
      i := i + 1;
    }
  }

  /** Read n bytes at `at`, from the most significant down. */
  method GetLittle(s: seq<Byte>, at: nat, n: nat) returns (v: nat)
    requires at + n <= |s|
    ensures v == Number(s[at..at + n])
  {
    v := 0;
    var i := n;
    while i > 0
      invariant 0 <= i <= n
      invariant v == Number(s[at + i..at + n])
    {
      i := i - 1;
      assert s[at + i..at + n][1..] == s[at + i + 1..at + n];
      v := 256 * v + s[at + i];
    }
  }

  method AllZero(s: seq<Byte>) returns (zero: bool)
    ensures zero <==> s == Zeros(|s|)
  {
    for i := 0 to |s|
      invariant forall k :: 0 <= k < i ==> s[k] == 0
    {
      if s[i] != 0 {
        return false;
      }
    }
    return true;
  }
}
