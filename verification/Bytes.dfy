/** Bytes, and the fixed-width little-endian integers that fingerprints are built from. */
module Bytes {
  type byte = b: int | 0 <= b < 256

  const TWO_63 := 0x8000_0000_0000_0000
  const TWO_64 := 0x1_0000_0000_0000_0000

  /** The least `256^k`. */
  function Places(k: nat): nat { if k == 0 then 1 else 256 * Places(k - 1) }

  function Little(n: nat, k: nat): (r: seq<byte>)
    ensures |r| == k
  {
    if k == 0 then [] else [n % 256] + Little(n / 256, k - 1)
  }

  function FromLittle(s: seq<byte>): nat { if s == [] then 0 else s[0] + 256 * FromLittle(s[1..]) }

  lemma {:induction false} LittleRoundTrip(n: nat, k: nat)
    requires n < Places(k)
    ensures FromLittle(Little(n, k)) == n
  {
    if k == 0 {
    } else {
      LittleRoundTrip(n / 256, k - 1);
    }
  }

  /** Later bytes weigh more: what follows `a` counts in units of 256^|a|. */
  lemma {:induction false} FromLittleConcat(a: seq<byte>, b: seq<byte>)
    ensures FromLittle(a + b) == FromLittle(a) + Places(|a|) * FromLittle(b)
  {
    if a == [] {
      assert a + b == b;
    } else {
      FromLittleConcat(a[1..], b);
      assert (a + b)[1..] == a[1..] + b;
      assert 256 * (Places(|a| - 1) * FromLittle(b)) == Places(|a|) * FromLittle(b);
    }
  }

  lemma LowByte(low: byte, rest: nat)
    ensures (low + 256 * rest) % 256 == low && (low + 256 * rest) / 256 == rest
  {
  }

  lemma {:induction false} FromLittleRoundTrip(s: seq<byte>)
    ensures FromLittle(s) < Places(|s|) && Little(FromLittle(s), |s|) == s
  {
    if s == [] {
    } else {
      FromLittleRoundTrip(s[1..]);
      LowByte(s[0], FromLittle(s[1..]));
      assert s == [s[0]] + s[1..];
    }
  }

  lemma EightPlaces()
    ensures Places(8) == TWO_64
  {
    assert Places(4) == 0x1_0000_0000;
  }

  /** `to_bytes(8, "little", signed=False)`. */
  function Unsigned(n: nat): (r: seq<byte>)
    requires n < TWO_64
    ensures |r| == 8
  {
    Little(n, 8)
  }

  /** `to_bytes(8, "little", signed=True)`: two's complement. */
  function Signed(t: int): (r: seq<byte>)
    requires FitsSigned(t)
    ensures |r| == 8
  {
    Little(if t < 0 then t + TWO_64 else t, 8)
  }

  predicate FitsSigned(t: int) { -TWO_63 <= t < TWO_63 }

  function FromSigned(s: seq<byte>): int {
    if FromLittle(s) < TWO_63 then FromLittle(s) else FromLittle(s) - TWO_64
  }

  lemma UnsignedRoundTrip(n: nat)
    requires n < TWO_64
    ensures FromLittle(Unsigned(n)) == n
  {
    EightPlaces();
    LittleRoundTrip(n, 8);
  }

  lemma SignedRoundTrip(t: int)
    requires FitsSigned(t)
    ensures FromSigned(Signed(t)) == t && FromLittle(Signed(t)) == t % TWO_64
  {
    EightPlaces();
    LittleRoundTrip(if t < 0 then t + TWO_64 else t, 8);
  }

  lemma FromSignedRoundTrip(s: seq<byte>)
    requires |s| == 8
    ensures FitsSigned(FromSigned(s)) && Signed(FromSigned(s)) == s
  {
    EightPlaces();
    FromLittleRoundTrip(s);
  }
}
