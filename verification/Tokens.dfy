/** Cached tokens, and the exact sums and means taken over them. */
module Tokens {

  /** A vector: all head and channel coordinates of one cache entry, flattened. */
  type Vec = seq<real>

  /** One cache entry along the sequence dimension. */
  datatype KV = KV(key: Vec, value: Vec)

  /** Selects the key half or the value half of an entry. */
  datatype Side = Key | Value

  function Coord(t: KV, side: Side, c: nat): real {
    var v := if side.Key? then t.key else t.value;
    if c < |v| then v[c] else 0.0
  }

  /** The sum of coordinate `c` of one side over a block of tokens. */
  function Sum(ts: seq<KV>, side: Side, c: nat): real {
    if ts == [] then 0.0 else Sum(ts[..|ts| - 1], side, c) + Coord(ts[|ts| - 1], side, c)
  }

  lemma {:induction false} SumConcat(a: seq<KV>, b: seq<KV>, side: Side, c: nat)
    ensures Sum(a + b, side, c) == Sum(a, side, c) + Sum(b, side, c)
  {
    if b == [] {
      assert a + b == a;
    } else {
      assert (a + b)[..|a + b| - 1] == a + b[..|b| - 1];
      SumConcat(a, b[..|b| - 1], side, c);
    }
  }

  /** `n` copies of `x` added up; `TimesIsProduct` shows this is the product. */
  function Times(x: real, n: nat): real {
    if n == 0 then 0.0 else Times(x, n - 1) + x
  }

  lemma {:induction false} TimesIsProduct(x: real, n: nat)
    ensures Times(x, n) == x * n as real
  {
    if n == 0 {
    } else {
      TimesIsProduct(x, n - 1);
    }
  }

  /** `m` is the mean of `ts`: in every coordinate, count times mean is the exact sum. */
  ghost predicate IsMean(dim: nat, m: KV, ts: seq<KV>) {
    && |m.key| == |m.value| == dim
    && forall side, c: nat {:trigger Coord(m, side, c)} | c < dim ::
         Times(Coord(m, side, c), |ts|) == Sum(ts, side, c)
  }

  function Zero(dim: nat): KV {
    KV(seq(dim, _ => 0.0), seq(dim, _ => 0.0))
  }

  /** The mean of `n` numbers that add up to `sum`. */
  function Share(sum: real, n: nat): (q: real)
    requires n > 0
    ensures Times(q, n) == sum
  {
    TimesIsProduct(sum / n as real, n);
    sum / n as real
  }

  /** One coordinate of the mean of `block` and of `n` earlier tokens whose mean is `m`. */
  function AbsorbAt(m: KV, n: nat, block: seq<KV>, side: Side, c: nat): (q: real)
    requires n + |block| > 0
  {
    Share(Times(Coord(m, side, c), n) + Sum(block, side, c), n + |block|)
  }

  /** The running mean after `block` joins `n` tokens whose mean is `m`. */
  function Absorb(dim: nat, m: KV, n: nat, block: seq<KV>): KV
    requires n + |block| > 0
  {
    KV(seq(dim, (c: nat) => AbsorbAt(m, n, block, Key, c)), seq(dim, (c: nat) => AbsorbAt(m, n, block, Value, c)))
  }

  function MeanOf(dim: nat, block: seq<KV>): KV
    requires |block| > 0
  {
    Absorb(dim, Zero(dim), 0, block)
  }

  /** One coordinate of the count-weighted mean of two means. */
  function MergeAt(a: KV, na: nat, b: KV, nb: nat, side: Side, c: nat): (q: real)
    requires na + nb > 0
  {
    Share(Times(Coord(a, side, c), na) + Times(Coord(b, side, c), nb), na + nb)
  }

  /** The count-weighted mean of two means. */
  function MergeMeans(dim: nat, a: KV, na: nat, b: KV, nb: nat): KV
    requires na + nb > 0
  {
    KV(seq(dim, (c: nat) => MergeAt(a, na, b, nb, Key, c)), seq(dim, (c: nat) => MergeAt(a, na, b, nb, Value, c)))
  }

  lemma ZeroIsMean(dim: nat)
    ensures IsMean(dim, Zero(dim), [])
  {
  }

  lemma AbsorbIsMean(dim: nat, m: KV, a: seq<KV>, block: seq<KV>)
    requires IsMean(dim, m, a) && |a| + |block| > 0
    ensures IsMean(dim, Absorb(dim, m, |a|, block), a + block)
  {
    var r := Absorb(dim, m, |a|, block);
    forall side, c: nat | c < dim
      ensures Times(Coord(r, side, c), |a + block|) == Sum(a + block, side, c)
    {
      SumConcat(a, block, side, c);
      assert Coord(r, side, c) == AbsorbAt(m, |a|, block, side, c) by {
        assert side == Key || side == Value;
      }
      assert Times(Coord(m, side, c), |a|) == Sum(a, side, c);
    }
  }

  lemma MergeIsMean(dim: nat, ma: KV, a: seq<KV>, mb: KV, b: seq<KV>)
    requires IsMean(dim, ma, a) && IsMean(dim, mb, b) && |a| + |b| > 0
    ensures IsMean(dim, MergeMeans(dim, ma, |a|, mb, |b|), a + b)
  {
    var r := MergeMeans(dim, ma, |a|, mb, |b|);
    forall side, c: nat | c < dim
      ensures Times(Coord(r, side, c), |a + b|) == Sum(a + b, side, c)
    {
      SumConcat(a, b, side, c);
      assert Coord(r, side, c) == MergeAt(ma, |a|, mb, |b|, side, c) by {
        assert side == Key || side == Value;
      }
      assert Times(Coord(ma, side, c), |a|) == Sum(a, side, c);
      assert Times(Coord(mb, side, c), |b|) == Sum(b, side, c);
    }
  }

  lemma MeanOfIsMean(dim: nat, block: seq<KV>)
    requires |block| > 0
    ensures IsMean(dim, MeanOf(dim, block), block)
  {
    ZeroIsMean(dim);
    AbsorbIsMean(dim, Zero(dim), [], block);
    assert [] + block == block;
  }
}
