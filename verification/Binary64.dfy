/** What 64 bits stand for as a binary64 number of IEEE 754: sign, exponent and significand. */
module Binary64 {
  import opened Fractions
  import Stored = StateContainer

  const SIGN: nat := 0x8000_0000_0000_0000
  const HIDDEN: nat := 0x10_0000_0000_0000

  /** Two to the k, for exponents of both signs. */
  function Power2(k: int): real
    decreases if k < 0 then -k else k
  {
    if k == 0 then 1.0 else if k > 0 then 2.0 * Power2(k - 1) else Power2(k + 1) / 2.0
  }

  lemma {:induction false} Power2Next(k: int)
    ensures Power2(k + 1) == 2.0 * Power2(k) && Power2(k) > 0.0
    decreases if k < 0 then -k else k
  {
    if k > 0 {
      Power2Next(k - 1);
    } else if k < 0 {
      Power2Next(k + 1);
    }
  }

  lemma {:induction false} Power2Grows(j: int, k: int)
    requires j <= k
    ensures Power2(j) <= Power2(k)
    decreases k - j
  {
    Power2Next(j);
    if j < k {
      Power2Grows(j + 1, k);
    }
  }

  /** Scaling by a power of two is repeated doubling. */
  lemma {:induction false} Power2Adds(n: nat, k: int, x: real)
    requires x == Power2(n)
    ensures x * Power2(k) == Power2(n + k)
  {
    if n > 0 {
      Power2Next(n - 1);
      Power2Next(n - 1 + k);
      Power2Adds(n - 1, k, Power2(n - 1));
      assert x * Power2(k) == 2.0 * (Power2(n - 1) * Power2(k));
    }
  }

  lemma HiddenIsPower()
    ensures Power2(52) == HIDDEN as real && Power2(53) == 2.0 * HIDDEN as real
  {
    assert Power2(4) == 16.0 && Power2(8) == 256.0 && Power2(12) == 4096.0 && Power2(13) == 8192.0;
    Power2Adds(13, 13, 8192.0);
    Power2Adds(26, 26, 67108864.0);
    Power2Next(52);
  }

  /** Sign, exponent and fraction of a bit pattern. */
  datatype Fields = Fields(negative: bool, exponent: nat, fraction: nat)

  function FieldsOf(bits: Stored.Word64): (f: Fields)
    ensures f.exponent < 2048 && f.fraction < HIDDEN
    ensures bits == (if f.negative then SIGN else 0) + f.exponent * HIDDEN + f.fraction
  {
    var magnitude := if bits >= SIGN then bits - SIGN else bits;
    Fields(bits >= SIGN, magnitude / HIDDEN, magnitude % HIDDEN)
  }

  /** The largest exponent marks infinities and NaNs. */
  predicate IsFinite(bits: Stored.Word64) {
    FieldsOf(bits).exponent != 2047
  }

  function Significand(f: Fields): nat {
    if f.exponent == 0 then f.fraction else HIDDEN + f.fraction
  }

  function Scale2(f: Fields): int {
    if f.exponent == 0 then -1074 else f.exponent - 1075
  }

  function Scaled(s: real, k: int): real {
    s * Power2(k)
  }

  function Magnitude(f: Fields): real {
    Scaled(Significand(f) as real, Scale2(f))
  }

  /** The number that finite bits stand for; the others stand for none, and get one that is no fraction. */
  function Value(bits: Stored.Word64): real {
    var f := FieldsOf(bits);
    if !IsFinite(bits) then 2.0 else if f.negative then -Magnitude(f) else Magnitude(f)
  }

  lemma MagnitudeZeroIff(f: Fields)
    ensures Magnitude(f) >= 0.0 && (Magnitude(f) == 0.0 <==> f.exponent == 0 && f.fraction == 0)
  {
    Power2Next(Scale2(f));
    ProductSign(Significand(f) as real, Power2(Scale2(f)));
  }

  lemma ProductSign(x: real, k: real)
    requires x >= 0.0 && k > 0.0
    ensures x * k >= 0.0 && (x * k == 0.0 <==> x == 0.0)
  {
  }

  lemma BelowOne(s: real, k: int)
    requires s < 2.0 * HIDDEN as real && k + 53 <= 0
    ensures Scaled(s, k) < 1.0
  {
    HiddenIsPower();
    Power2Next(k);
    Power2Adds(53, k, 2.0 * HIDDEN as real);
    Power2Grows(53 + k, 0);
    SmallerProduct(s, 2.0 * HIDDEN as real, Power2(k));
  }

  lemma AtLeastOne(s: real, k: int)
    requires s >= HIDDEN as real && k + 52 >= 0
    ensures Scaled(s, k) >= 1.0
  {
    HiddenIsPower();
    Power2Next(k);
    Power2Adds(52, k, HIDDEN as real);
    Power2Grows(0, 52 + k);
    Scale(HIDDEN as real, s, Power2(k));
  }

  lemma MagnitudeBelowOneIff(f: Fields)
    requires f.exponent < 2048 && f.fraction < HIDDEN
    ensures Magnitude(f) < 1.0 <==> f.exponent < 1023
  {
    if f.exponent < 1023 {
      BelowOne(Significand(f) as real, Scale2(f));
    } else {
      AtLeastOne(Significand(f) as real, Scale2(f));
    }
  }

  lemma SmallerProduct(x: real, y: real, k: real)
    requires x < y && k > 0.0
    ensures x * k < y * k
  {
  }

  /** The container's test on bits is the test on the number: finite, at least zero and below one. */
  lemma FractionIff(bits: Stored.Word64)
    ensures Stored.IsFraction(bits) <==> IsFinite(bits) && 0.0 <= Value(bits) < 1.0
    ensures Stored.IsZero(bits) <==> IsFinite(bits) && Value(bits) == 0.0
  {
    var f := FieldsOf(bits);
    MagnitudeZeroIff(f);
    MagnitudeBelowOneIff(f);
    BelowOneBits(bits);
  }

  lemma BelowOneBits(bits: Stored.Word64)
    ensures bits < 0x3FF0_0000_0000_0000 <==> !FieldsOf(bits).negative && FieldsOf(bits).exponent < 1023
    ensures Stored.IsZero(bits) <==> FieldsOf(bits).exponent == 0 && FieldsOf(bits).fraction == 0
  {
  }
}
