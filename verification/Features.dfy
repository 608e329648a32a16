/** The feature arithmetic of the leader: similarities, centroids and their farthest-point start. */
module Features {
  import opened Tokens

  function Dot(a: Vec, b: Vec): real {
    if a == [] || b == [] then 0.0 else a[0] * b[0] + Dot(a[1..], b[1..])
  }

  lemma {:induction false} DotSymmetric(a: Vec, b: Vec)
    ensures Dot(a, b) == Dot(b, a)
  {
    if a == [] || b == [] {
    } else {
      DotSymmetric(a[1..], b[1..]);
    }
  }

  /** Every coordinate adds its own product. */
  lemma {:induction false} DotSnoc(a: Vec, b: Vec, x: real, y: real)
    requires |a| == |b|
    ensures Dot(a + [x], b + [y]) == Dot(a, b) + x * y
  {
    if a == [] {
      assert ([x])[1..] == [] && ([y])[1..] == [];
    } else {
      assert (a + [x])[1..] == a[1..] + [x] && (b + [y])[1..] == b[1..] + [y];
      DotSnoc(a[1..], b[1..], x, y);
    }
  }

  /** The squared Euclidean distance. */
  function Gap(a: Vec, b: Vec): real
    requires |a| == |b|
  {
    if a == [] then 0.0
    else
      var n := |a| - 1;
      Gap(a[..n], b[..n]) + (a[n] - b[n]) * (a[n] - b[n])
  }

  lemma {:induction false} GapIsDots(a: Vec, b: Vec)
    requires |a| == |b|
    ensures Gap(a, b) == Dot(a, a) + Dot(b, b) - 2.0 * Dot(a, b)
  {
    if a == [] {
    } else {
      var n := |a| - 1;
      var x, y := a[n], b[n];
      GapIsDots(a[..n], b[..n]);
      assert a == a[..n] + [x] && b == b[..n] + [y];
      DotSnoc(a[..n], a[..n], x, x);
      DotSnoc(b[..n], b[..n], y, y);
      DotSnoc(a[..n], b[..n], x, y);
      SquareOfDifference(x, y);
    }
  }

  lemma SquareOfDifference(x: real, y: real)
    ensures (x - y) * (x - y) == x * x + y * y - 2.0 * (x * y)
  {
  }

  /** Distance of two unit features: one minus their cosine. */
  function Distance(a: Vec, b: Vec): real { 1.0 - Dot(a, b) }

  lemma DistanceSymmetric(a: Vec, b: Vec)
    ensures Distance(a, b) == Distance(b, a)
  {
    DotSymmetric(a, b);
  }

  /** Of vectors of length one it is half the squared Euclidean distance. */
  lemma DistanceIsHalfGap(a: Vec, b: Vec)
    requires |a| == |b| && Dot(a, a) == 1.0 && Dot(b, b) == 1.0
    ensures 2.0 * Distance(a, b) == Gap(a, b)
  {
    GapIsDots(a, b);
  }

  function At(v: Vec, i: nat): real { if i < |v| then v[i] else 0.0 }

  // ---- centroids that move ------------------------------------------------

  /** The centroid `c` has moved towards `f`: in every coordinate by the same share of what is between them. */
  ghost predicate Drifts(momentum: real, c: Vec, f: Vec, r: Vec) {
    |r| == |c| && forall i | 0 <= i < |c| :: r[i] - c[i] == (1.0 - momentum) * (At(f, i) - c[i])
  }

  /** momentum * c + (1 - momentum) * f, the centroid update. */
  function Blend(momentum: real, c: Vec, f: Vec): (r: Vec)
    ensures Drifts(momentum, c, f, r)
  {
    seq(|c|, i requires 0 <= i < |c| => momentum * c[i] + (1.0 - momentum) * At(f, i))
  }

  function Power(x: real, n: nat): real { if n == 0 then 1.0 else x * Power(x, n - 1) }

  /** Coordinate `i` of the targets, the last one weighted by 1 - momentum, each earlier one less by a factor. */
  function Weighted(momentum: real, fs: seq<Vec>, i: nat): real {
    if fs == [] then 0.0
    else (1.0 - momentum) * Power(momentum, |fs| - 1) * At(fs[0], i) + Weighted(momentum, fs[1..], i)
  }

  /** The centroid `c` after moving towards the targets `fs` one after another. */
  ghost predicate Drifted(momentum: real, c: Vec, fs: seq<Vec>, r: Vec) {
    |r| == |c|
    && forall i | 0 <= i < |c| :: r[i] == Power(momentum, |fs|) * c[i] + Weighted(momentum, fs, i)
  }

  lemma {:induction false} WeightedSnoc(momentum: real, fs: seq<Vec>, f: Vec, i: nat)
    ensures Weighted(momentum, fs + [f], i) == momentum * Weighted(momentum, fs, i) + (1.0 - momentum) * At(f, i)
  {
    hide At, Weighted, Power;
    WeightedUnfold(momentum, fs + [f], i);
    if fs == [] {
      NoTargets(momentum, i);
      assert (fs + [f])[1..] == [];
    } else {
      WeightedUnfold(momentum, fs, i);
      assert (fs + [f])[1..] == fs[1..] + [f];
      WeightedSnoc(momentum, fs[1..], f, i);
      Rescaled(momentum, Power(momentum, |fs| - 1), At(fs[0], i), Weighted(momentum, fs[1..], i));
    }
  }

  lemma NoTargets(momentum: real, i: nat)
    ensures Weighted(momentum, [], i) == 0.0 && Power(momentum, 0) == 1.0
  {
  }

  lemma WeightedUnfold(momentum: real, fs: seq<Vec>, i: nat)
    requires fs != []
    ensures Weighted(momentum, fs, i)
         == (1.0 - momentum) * Power(momentum, |fs| - 1) * At(fs[0], i) + Weighted(momentum, fs[1..], i)
    ensures |fs| > 1 ==> Power(momentum, |fs| - 1) == momentum * Power(momentum, |fs| - 2)
  {
  }

  lemma Rescaled(m: real, p: real, x: real, w: real)
    ensures (1.0 - m) * (m * p) * x + m * w == m * ((1.0 - m) * p * x + w)
  {
  }

  lemma NotDrifted(momentum: real, c: Vec)
    ensures Drifted(momentum, c, [], c)
  {
  }

  /** One more move adds one more target. */
  lemma DriftedNext(momentum: real, c: Vec, fs: seq<Vec>, r: Vec, f: Vec, r': Vec)
    requires Drifted(momentum, c, fs, r) && Drifts(momentum, r, f, r')
    ensures Drifted(momentum, c, fs + [f], r')
  {
    hide Weighted, At;
    assert Power(momentum, |fs| + 1) == momentum * Power(momentum, |fs|);
    hide Power;
    forall i | 0 <= i < |c| ensures r'[i] == Power(momentum, |fs| + 1) * c[i] + Weighted(momentum, fs + [f], i) {
      WeightedSnoc(momentum, fs, f, i);
      OneMove(momentum, r[i], At(f, i), Power(momentum, |fs|), c[i], Weighted(momentum, fs, i), r'[i]);
    }
  }

  lemma OneMove(m: real, r: real, f: real, p: real, c: real, w: real, r': real)
    requires r == p * c + w && r' - r == (1.0 - m) * (f - r)
    ensures r' == m * p * c + (m * w + (1.0 - m) * f)
  {
    assert r' == m * r + (1.0 - m) * f;
    assert m * (p * c + w) == m * p * c + m * w;
  }

  // ---- means --------------------------------------------------------------

  /** Coordinate `i` of all vectors added up. */
  function SumAt(fs: seq<Vec>, i: nat): real {
    if fs == [] then 0.0 else At(fs[0], i) + SumAt(fs[1..], i)
  }

  lemma {:induction false} SumAtSnoc(fs: seq<Vec>, f: Vec, i: nat)
    ensures SumAt(fs + [f], i) == SumAt(fs, i) + At(f, i)
  {
    if fs == [] {
      assert (fs + [f])[1..] == [];
    } else {
      assert (fs + [f])[1..] == fs[1..] + [f];
      SumAtSnoc(fs[1..], f, i);
    }
  }

  /** In every coordinate of the first vector, count times mean is the exact sum. */
  ghost predicate IsAverage(fs: seq<Vec>, m: Vec) {
    fs != [] && |m| == |fs[0]| && forall i | 0 <= i < |m| :: m[i] * |fs| as real == SumAt(fs, i)
  }

  /** The centroid has moved towards the mean of the features `fs`. */
  ghost predicate DriftsToMean(momentum: real, c: Vec, fs: seq<Vec>, r: Vec) {
    exists m :: IsAverage(fs, m) && Drifts(momentum, c, m, r)
  }

  function Add(a: Vec, b: Vec): Vec {
    seq(|a|, i requires 0 <= i < |a| => a[i] + At(b, i))
  }

  function Subtract(a: Vec, b: Vec): Vec {
    seq(|a|, i requires 0 <= i < |a| => a[i] - At(b, i))
  }

  function AddAll(fs: seq<Vec>): (r: Vec)
    requires fs != []
    ensures |r| == |fs[0]| && forall i | 0 <= i < |r| :: r[i] == SumAt(fs, i)
  {
    if |fs| == 1 then
      assert fs[1..] == [];
      fs[0]
    else
      var n := |fs| - 1;
      var r := Add(AddAll(fs[..n]), fs[n]);
      SumsSnoc(fs);
      r
  }

  lemma SumsSnoc(fs: seq<Vec>)
    requires fs != []
    ensures forall i: nat :: SumAt(fs, i) == SumAt(fs[..|fs| - 1], i) + At(fs[|fs| - 1], i)
  {
    assert fs == fs[..|fs| - 1] + [fs[|fs| - 1]];
    forall i: nat ensures SumAt(fs, i) == SumAt(fs[..|fs| - 1], i) + At(fs[|fs| - 1], i) {
      SumAtSnoc(fs[..|fs| - 1], fs[|fs| - 1], i);
    }
  }

  function Average(fs: seq<Vec>): (m: Vec)
    requires fs != []
    ensures IsAverage(fs, m)
  {
    var total := AddAll(fs);
    seq(|total|, i requires 0 <= i < |total| => total[i] / |fs| as real)
  }

  /** The similarity of `x` to the closest member of `chosen`. */
  function MaxSim(x: Vec, chosen: seq<Vec>): real
    requires chosen != []
  {
    var last := Dot(x, chosen[|chosen| - 1]);
    if |chosen| == 1 then last
    else
      var before := MaxSim(x, chosen[..|chosen| - 1]);
      if before < last then last else before
  }

  lemma {:induction false} MaxSimIsLargest(x: Vec, chosen: seq<Vec>) returns (j: nat)
    requires chosen != []
    ensures j < |chosen| && MaxSim(x, chosen) == Dot(x, chosen[j])
    ensures forall k | 0 <= k < |chosen| :: Dot(x, chosen[k]) <= Dot(x, chosen[j])
  {
    hide Dot;
    var n := |chosen| - 1;
    j := n;
    if n == 0 {
    } else {
      var before := MaxSimIsLargest(x, chosen[..n]);
      assert forall k | 0 <= k < n :: chosen[..n][k] == chosen[k];
      if Dot(x, chosen[n]) <= Dot(x, chosen[before]) {
        j := before;
      }
    }
  }

  /** Some member is at least as similar to `y` as any member is to `x`. */
  ghost predicate NoCloser(x: Vec, y: Vec, chosen: seq<Vec>) {
    exists j | 0 <= j < |chosen| :: forall k | 0 <= k < |chosen| :: Dot(x, chosen[k]) <= Dot(y, chosen[j])
  }

  lemma NoCloserIntro(x: Vec, y: Vec, chosen: seq<Vec>)
    requires chosen != [] && MaxSim(x, chosen) <= MaxSim(y, chosen)
    ensures NoCloser(x, y, chosen)
  {
    hide Dot, MaxSim;
    var i := MaxSimIsLargest(x, chosen);
    var j := MaxSimIsLargest(y, chosen);
    assert forall k | 0 <= k < |chosen| :: Dot(x, chosen[k]) <= Dot(y, chosen[j]);
  }

  /** An index of a largest entry; the contract leaves ties open. */
  method ArgBest(xs: seq<real>) returns (best: nat)
    requires xs != []
    ensures best < |xs| && forall i | 0 <= i < |xs| :: xs[i] <= xs[best]
  {
    best := 0;
    var i := 1;
    while i < |xs|
      invariant 1 <= i <= |xs| && best < |xs|
      invariant forall j | 0 <= j < i :: xs[j] <= xs[best]
    {
      if xs[best] < xs[i] {
        best := i;
      }
      i := i + 1;
    }
  }

  /** Member `i` is the feature whose largest similarity to a member before it is least. */
  ghost predicate FarthestFirst(fs: seq<Vec>, chosen: seq<Vec>) {
    && chosen != [] && fs != [] && chosen[0] == fs[0]
    && (forall i | 0 <= i < |chosen| :: chosen[i] in fs)
    && forall i, t | 1 <= i < |chosen| && 0 <= t < |fs| :: NoCloser(chosen[i], fs[t], chosen[..i])
  }

  lemma FarthestFirstExtend(fs: seq<Vec>, chosen: seq<Vec>, x: Vec)
    requires FarthestFirst(fs, chosen) && x in fs
    requires forall t | 0 <= t < |fs| :: MaxSim(x, chosen) <= MaxSim(fs[t], chosen)
    ensures FarthestFirst(fs, chosen + [x])
  {
    hide NoCloser, MaxSim;
    var more := chosen + [x];
    forall i, t | 1 <= i < |more| && 0 <= t < |fs| ensures NoCloser(more[i], fs[t], more[..i]) {
      if i < |chosen| {
        assert more[..i] == chosen[..i];
      } else {
        assert more[..i] == chosen;
        NoCloserIntro(x, fs[t], chosen);
      }
    }
  }

  /** The deterministic farthest-point start over the available features. */
  method FarthestPoint(fs: seq<Vec>, n: nat) returns (chosen: seq<Vec>)
    requires fs != [] && n >= 1
    ensures |chosen| == n && FarthestFirst(fs, chosen)
  {
    hide Dot, NoCloser;
    chosen := [fs[0]];
    var sims := seq(|fs|, t requires 0 <= t < |fs| => Dot(fs[t], fs[0]));
    while |chosen| < n
      invariant 1 <= |chosen| <= n && FarthestFirst(fs, chosen)
      invariant |sims| == |fs| && forall t | 0 <= t < |fs| :: sims[t] == MaxSim(fs[t], chosen)
    {
      var negated := seq(|sims|, t requires 0 <= t < |sims| => -sims[t]);
      var far := ArgBest(negated);
      var x := fs[far];
      forall t | 0 <= t < |fs| ensures MaxSim(x, chosen) <= MaxSim(fs[t], chosen) {
        assert negated[t] <= negated[far];
      }
      FarthestFirstExtend(fs, chosen, x);
      sims := seq(|fs|, t requires 0 <= t < |fs| => var d := Dot(fs[t], x); if sims[t] < d then d else sims[t]);
      assert (chosen + [x])[..|chosen|] == chosen;
      chosen := chosen + [x];
    }
  }
}
