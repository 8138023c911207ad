/** Numbers as Bitcoin Script encodes them, and the truncation of voting power to 23 bits. */
module ScriptNums {
  import opened Common
  import opened BitcoinTypes

  // ----- script numbers -----

  /** Little-endian magnitude; the top bit of the last byte is the sign. */
  function EncodeMagnitude(n: nat, negative: bool): Bytes
    requires n > 0
  {
    if n < 128 then [if negative then n + 128 else n]
    else if n < 256 then [n, if negative then 128 else 0]
    else [n % 256] + EncodeMagnitude(n / 256, negative)
  }

  function EncodeNum(n: int): Bytes {
    if n == 0 then [] else if n > 0 then EncodeMagnitude(n, false) else EncodeMagnitude(-n, true)
  }

  /** Magnitude and sign of a non-empty encoding. */
  function DecodeMagnitude(bytes: Bytes): (nat, bool)
    requires bytes != []
  {
    if |bytes| == 1 then (bytes[0] % 128, bytes[0] >= 128)
    else var rest := DecodeMagnitude(bytes[1..]); (bytes[0] + 256 * rest.0, rest.1)
  }

  /** No shorter encoding of the same number exists. */
  predicate Minimal(bytes: Bytes)
    requires bytes != []
  {
    var last := bytes[|bytes| - 1];
    last % 128 != 0 || (|bytes| > 1 && bytes[|bytes| - 2] >= 128)
  }

  /** `read_scriptint`: at most four bytes, minimally encoded. */
  function DecodeNum(bytes: Bytes): Result<int> {
    if bytes == [] then Ok(0)
    else if |bytes| > 4 || !Minimal(bytes) then Err(Rejected)
    else var (n, negative) := DecodeMagnitude(bytes); Ok(if negative then 0 - n else n)
  }

  lemma {:induction false} MagnitudeRoundTrip(n: nat, negative: bool)
    requires n > 0
    ensures var e := EncodeMagnitude(n, negative);
            e != [] && DecodeMagnitude(e) == (n, negative) && Minimal(e)
  {
    if n >= 256 {
      MagnitudeRoundTrip(n / 256, negative);
      var rest := EncodeMagnitude(n / 256, negative);
      var e := EncodeMagnitude(n, negative);
      assert e[1..] == rest;
      assert e[|e| - 1] == rest[|rest| - 1];
    } else if n >= 128 {
      var e := EncodeMagnitude(n, negative);
      assert e[1..] == [if negative then 128 else 0];
    }
  }

  /** Three bytes hold 23 bits and the sign, four bytes 31. */
  lemma MagnitudeLength(n: nat, negative: bool)
    requires 0 < n < 0x8000_0000
    ensures |EncodeMagnitude(n, negative)| <= 4
    ensures n < 0x80_0000 ==> |EncodeMagnitude(n, negative)| <= 3
  {
    var e := EncodeMagnitude(n, negative);
    if n >= 256 {
      var n1 := n / 256;
      assert e == [n % 256] + EncodeMagnitude(n1, negative);
      if n1 >= 256 {
        var n2 := n1 / 256;
        assert EncodeMagnitude(n1, negative) == [n1 % 256] + EncodeMagnitude(n2, negative);
        if n2 >= 256 {
          var n3 := n2 / 256;
          assert n3 < 128;
          assert EncodeMagnitude(n2, negative) == [n2 % 256] + EncodeMagnitude(n3, negative);
        }
      }
    }
  }

  lemma NumRoundTrip(n: int)
    requires -0x8000_0000 < n < 0x8000_0000
    ensures DecodeNum(EncodeNum(n)) == Ok(n)
  {
    if n != 0 {
      var m, negative := if n > 0 then n else -n, n < 0;
      MagnitudeRoundTrip(m, negative);
      MagnitudeLength(m, negative);
    }
  }

  /** How a witness element reads as a condition: any byte set, negative zero being false. */
  predicate IsTrue(bytes: Bytes) {
    exists i :: 0 <= i < |bytes| && bytes[i] != 0 && !(i == |bytes| - 1 && bytes[i] == 128)
  }

  // ----- truncation -----

  function Pow2(t: nat): (r: nat)
    ensures r > 0
  {
    if t == 0 then 1 else 2 * Pow2(t - 1)
  }

  /** The number of bits of `n`. */
  function Bits(n: nat): nat {
    if n == 0 then 0 else 1 + Bits(n / 2)
  }

  /** `x >> t`. */
  function Shift(x: nat, t: nat): nat {
    if t == 0 then x else Shift(x / 2, t - 1)
  }

  const PRECISION: nat := 23
  const LIMIT: nat := 0x80_0000

  /** What a number of four bytes stays below. */
  const WIDE: nat := 0x8000_0000

  /** The bits of precision to drop, `get_truncation(23)`. */
  function Truncation(presentVp: nat): nat {
    SatSub(Bits(presentVp), PRECISION)
  }

  lemma {:induction false} BitsBound(n: nat, b: nat)
    requires Bits(n) <= b
    ensures n < Pow2(b)
  {
    if b > 0 {
      BitsBound(n / 2, b - 1);
    }
  }

  lemma {:induction false} BitsExact(n: nat, b: nat)
    requires n < Pow2(b)
    ensures Bits(n) <= b
  {
    if n > 0 {
      BitsExact(n / 2, b - 1);
    }
  }

  lemma {:induction false} BitsShift(x: nat, t: nat)
    ensures Bits(Shift(x, t)) == SatSub(Bits(x), t)
  {
    if t > 0 {
      BitsShift(x / 2, t - 1);
    }
  }

  lemma Pow23()
    ensures Pow2(PRECISION) == LIMIT
  {
    assert Pow2(8) == 256;
    assert Pow2(16) == 65536;
    assert Pow2(20) == 0x10_0000;
  }

  /** A truncated total fits 23 bits, nothing is truncated exactly below 2^23, and no more is
      truncated than necessary: all 23 bits are used. */
  lemma TruncatedFits(presentVp: nat)
    ensures Shift(presentVp, Truncation(presentVp)) < 0x80_0000
    ensures presentVp < 0x80_0000 <==> Truncation(presentVp) == 0
    ensures presentVp >= 0x80_0000 ==> Shift(presentVp, Truncation(presentVp)) >= 0x40_0000
  {
    var t := Truncation(presentVp);
    Pow23();
    BitsShift(presentVp, t);
    BitsBound(Shift(presentVp, t), PRECISION);
    if presentVp < LIMIT {
      BitsExact(presentVp, PRECISION);
    } else if Shift(presentVp, t) < Pow2(PRECISION - 1) {
      BitsExact(Shift(presentVp, t), PRECISION - 1);
    }
  }

  /** Shifting rounds down to a multiple of 2^t. */
  lemma {:induction false} ShiftBounds(x: nat, t: nat)
    ensures Times(Shift(x, t), Pow2(t)) <= x < Times(Shift(x, t) + 1, Pow2(t))
  {
    if t > 0 {
      ShiftBounds(x / 2, t - 1);
      Double(Shift(x, t), Pow2(t - 1));
      Double(Shift(x, t) + 1, Pow2(t - 1));
    }
  }

  lemma Double(a: nat, b: nat)
    ensures Times(a, 2 * b) == 2 * Times(a, b)
  {
  }
}
