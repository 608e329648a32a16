/** Greedy farthest-point retention of the spans of one slot, under a token budget. */
module SpanRetention {
  import opened Lists
  import opened Tokens
  import opened Features

  datatype RetainConfig = RetainConfig(budget: nat, dupFloor: real, unit: Vec -> Vec)

  /** The tokens of the selected spans together. */
  function Used(lens: seq<nat>, sel: seq<nat>): nat
    requires Below(sel, |lens|)
  {
    if sel == [] then 0 else Used(lens, sel[..|sel| - 1]) + lens[sel[|sel| - 1]]
  }

  /** The distance of candidate `j` to the closest selected one. */
  function MinDist(xs: seq<Vec>, j: nat, sel: seq<nat>): real
    requires j < |xs| && sel != [] && Below(sel, |xs|)
  {
    var last := Distance(xs[j], xs[sel[|sel| - 1]]);
    if |sel| == 1 then last
    else
      var before := MinDist(xs, j, sel[..|sel| - 1]);
      if last < before then last else before
  }

  /** What the greedy step ranks: selected candidates are masked to -1. */
  function Rank(xs: seq<Vec>, j: nat, sel: seq<nat>): real
    requires j < |xs| && sel != [] && Below(sel, |xs|)
  {
    if j in sel then -1.0 else MinDist(xs, j, sel)
  }

  ghost predicate Farthest(xs: seq<Vec>, sel: seq<nat>, nxt: nat)
    requires sel != [] && Below(sel, |xs|)
  {
    nxt < |xs| && forall j | 0 <= j < |xs| :: Rank(xs, j, sel) <= Rank(xs, nxt, sel)
  }

  /** The loop takes `nxt`: there is budget left, nothing is farther, it is far enough, and it fits. */
  ghost predicate Accepts(cfg: RetainConfig, xs: seq<Vec>, lens: seq<nat>, sel: seq<nat>, nxt: nat) {
    && |lens| == |xs| && sel != [] && Below(sel, |xs|)
    && Used(lens, sel) < cfg.budget
    && Farthest(xs, sel, nxt) && Rank(xs, nxt, sel) >= cfg.dupFloor
    && Used(lens, sel) + lens[nxt] <= cfg.budget
  }

  /** The first pick: no candidate is less similar to the mean direction of all candidates. */
  ghost predicate Outermost(cfg: RetainConfig, xs: seq<Vec>, first: nat) {
    && first < |xs|
    && exists mean :: IsAverage(xs, mean)
         && forall j | 0 <= j < |xs| :: Dot(xs[first], cfg.unit(mean)) <= Dot(xs[j], cfg.unit(mean))
  }

  /** The first candidate is the outermost one, every later one was taken by the loop. */
  ghost predicate GreedyRun(cfg: RetainConfig, xs: seq<Vec>, lens: seq<nat>, sel: seq<nat>) {
    && |lens| == |xs| && sel != [] && Below(sel, |xs|) && Outermost(cfg, xs, sel[0])
    && forall k | 1 <= k < |sel| :: Accepts(cfg, xs, lens, sel[..k], sel[k])
  }

  /** Why the loop ended: budget used, or the farthest candidate is too close or does not fit. */
  ghost predicate Stopped(cfg: RetainConfig, xs: seq<Vec>, lens: seq<nat>, sel: seq<nat>)
    requires |lens| == |xs| && sel != [] && Below(sel, |xs|)
  {
    || Used(lens, sel) >= cfg.budget
    || exists nxt: nat :: Farthest(xs, sel, nxt)
         && (Rank(xs, nxt, sel) < cfg.dupFloor || Used(lens, sel) + lens[nxt] > cfg.budget)
  }

  /** Pairwise at least `floor` apart. */
  ghost predicate Apart(floor: real, fs: seq<Vec>) {
    forall i, j | 0 <= i < |fs| && 0 <= j < |fs| && i != j :: Distance(fs[i], fs[j]) >= floor
  }

  method FirstPick(cfg: RetainConfig, xs: seq<Vec>) returns (first: nat)
    requires xs != []
    ensures Outermost(cfg, xs, first)
  {
    var mean := Average(xs);
    var centre := cfg.unit(mean);
    var away := seq(|xs|, i requires 0 <= i < |xs| => Distance(xs[i], centre));
    hide Dot, Average, IsAverage;
    first := ArgBest(away);
    forall j | 0 <= j < |xs| ensures Dot(xs[first], centre) <= Dot(xs[j], centre) {
      assert away[j] <= away[first];
    }
  }

  method Greedy(cfg: RetainConfig, xs: seq<Vec>, lens: seq<nat>) returns (sel: seq<nat>)
    requires xs != [] && |lens| == |xs| && forall i | 0 <= i < |lens| :: lens[i] > 0
    ensures GreedyRun(cfg, xs, lens, sel) && Stopped(cfg, xs, lens, sel)
  {
    var first := FirstPick(cfg, xs);
    sel := [first];
    var used := lens[first];
    var mind := seq(|xs|, j requires 0 <= j < |xs| => Distance(xs[j], xs[first]));
    hide Distance, Outermost;
    while used < cfg.budget
      invariant GreedyRun(cfg, xs, lens, sel) && used == Used(lens, sel)
      invariant |mind| == |xs| && forall j | 0 <= j < |xs| && j !in sel :: mind[j] == MinDist(xs, j, sel)
      decreases cfg.budget - used
    {
      var ranked := seq(|xs|, j requires 0 <= j < |xs| => if j in sel then -1.0 else mind[j]);
      var nxt := ArgBest(ranked);
      FarthestFound(xs, sel, ranked, nxt);
      hide Accepts;
      if ranked[nxt] < cfg.dupFloor || used + lens[nxt] > cfg.budget {
        return;
      }
      assert Accepts(cfg, xs, lens, sel, nxt) by {
        AcceptsIntro(cfg, xs, lens, sel, nxt);
      }
      GreedyExtend(cfg, xs, lens, sel, nxt);
      mind := seq(|xs|, j requires 0 <= j < |xs| =>
        var d := Distance(xs[j], xs[nxt]);
        if d < ranked[j] then d else ranked[j]);
      used := used + lens[nxt];
      sel := sel + [nxt];
    }
  }

  lemma FarthestFound(xs: seq<Vec>, sel: seq<nat>, ranked: seq<real>, nxt: nat)
    requires sel != [] && Below(sel, |xs|) && |ranked| == |xs| && nxt < |xs|
    requires forall j | 0 <= j < |xs| :: ranked[j] == Rank(xs, j, sel)
    requires forall j | 0 <= j < |xs| :: ranked[j] <= ranked[nxt]
    ensures Farthest(xs, sel, nxt)
  {
  }

  lemma AcceptsIntro(cfg: RetainConfig, xs: seq<Vec>, lens: seq<nat>, sel: seq<nat>, nxt: nat)
    requires |lens| == |xs| && sel != [] && Below(sel, |xs|) && Used(lens, sel) < cfg.budget
    requires Farthest(xs, sel, nxt) && Rank(xs, nxt, sel) >= cfg.dupFloor && Used(lens, sel) + lens[nxt] <= cfg.budget
    ensures Accepts(cfg, xs, lens, sel, nxt)
  {
  }

  lemma GreedyExtend(cfg: RetainConfig, xs: seq<Vec>, lens: seq<nat>, sel: seq<nat>, nxt: nat)
    requires GreedyRun(cfg, xs, lens, sel) && Accepts(cfg, xs, lens, sel, nxt)
    ensures GreedyRun(cfg, xs, lens, sel + [nxt])
    ensures Used(lens, sel + [nxt]) == Used(lens, sel) + lens[nxt]
    ensures forall j | 0 <= j < |xs| :: MinDist(xs, j, sel + [nxt])
              == var d := Distance(xs[j], xs[nxt]); if d < MinDist(xs, j, sel) then d else MinDist(xs, j, sel)
  {
    assert (sel + [nxt])[..|sel|] == sel;
    forall k | 1 <= k < |sel + [nxt]| ensures Accepts(cfg, xs, lens, (sel + [nxt])[..k], (sel + [nxt])[k]) {
      if k < |sel| {
        assert (sel + [nxt])[..k] == sel[..k];
      }
    }
  }

  // ---- what a greedy run guarantees ---------------------------------------

  lemma {:induction false} MinDistIsClosest(xs: seq<Vec>, j: nat, sel: seq<nat>)
    requires j < |xs| && sel != [] && Below(sel, |xs|)
    ensures forall i | 0 <= i < |sel| :: MinDist(xs, j, sel) <= Distance(xs[j], xs[sel[i]])
    ensures exists i :: 0 <= i < |sel| && MinDist(xs, j, sel) == Distance(xs[j], xs[sel[i]])
  {
    hide Distance;
    var last := |sel| - 1;
    assert MinDist(xs, j, sel) <= Distance(xs[j], xs[sel[last]]);
    if |sel| > 1 {
      var before := sel[..last];
      MinDistIsClosest(xs, j, before);
      var i :| 0 <= i < |before| && MinDist(xs, j, before) == Distance(xs[j], xs[before[i]]);
      assert sel[i] == before[i];
    }
  }

  /** The budget is exceeded only by a single first span that is larger than the budget itself. */
  lemma WithinBudget(cfg: RetainConfig, xs: seq<Vec>, lens: seq<nat>, sel: seq<nat>)
    requires GreedyRun(cfg, xs, lens, sel)
    ensures if |sel| == 1 then Used(lens, sel) == lens[sel[0]] else Used(lens, sel) <= cfg.budget
  {
    var last := |sel| - 1;
    if last > 0 {
      assert Accepts(cfg, xs, lens, sel[..last], sel[last]);
    } else {
      assert sel[..0] == [];
    }
  }

  lemma AcceptedIsNew(cfg: RetainConfig, xs: seq<Vec>, lens: seq<nat>, sel: seq<nat>, nxt: nat)
    requires cfg.dupFloor > -1.0 && Accepts(cfg, xs, lens, sel, nxt)
    ensures nxt !in sel && forall i | 0 <= i < |sel| :: Distance(xs[nxt], xs[sel[i]]) >= cfg.dupFloor
  {
    MinDistIsClosest(xs, nxt, sel);
  }

  /** With a floor above -1 no candidate is taken twice and all taken ones are `dupFloor` apart. */
  lemma SelectionIsApart(cfg: RetainConfig, xs: seq<Vec>, lens: seq<nat>, sel: seq<nat>)
    requires cfg.dupFloor > -1.0 && GreedyRun(cfg, xs, lens, sel)
    ensures forall i, j | 0 <= i < j < |sel| :: sel[i] != sel[j]
    ensures forall i, j | 0 <= i < |sel| && 0 <= j < |sel| && i != j :: Distance(xs[sel[i]], xs[sel[j]]) >= cfg.dupFloor
  {
    forall i, j | 0 <= i < j < |sel|
      ensures sel[i] != sel[j]
      ensures Distance(xs[sel[i]], xs[sel[j]]) >= cfg.dupFloor && Distance(xs[sel[j]], xs[sel[i]]) >= cfg.dupFloor
    {
      AcceptedIsNew(cfg, xs, lens, sel[..j], sel[j]);
      assert sel[..j][i] == sel[i];
      DistanceSymmetric(xs[sel[i]], xs[sel[j]]);
    }
  }

  /**
   * The floor is exactly what keeps the loop from taking a candidate twice: masking to -1 is no
   * protection once `dupFloor` is -1 or less.
   */
  lemma NeverTwiceIffFloor(cfg: RetainConfig)
    ensures cfg.dupFloor > -1.0 <==>
            forall budget, xs, lens, sel, nxt :: Accepts(cfg.(budget := budget), xs, lens, sel, nxt) ==> nxt !in sel
  {
    if cfg.dupFloor > -1.0 {
      forall budget, xs, lens, sel, nxt | Accepts(cfg.(budget := budget), xs, lens, sel, nxt) ensures nxt !in sel {
        AcceptedIsNew(cfg.(budget := budget), xs, lens, sel, nxt);
      }
    } else {
      var x: Vec := [];
      var sel: seq<nat> := [0];
      assert Used([1], sel) == 1 by {
        assert sel[..0] == [];
      }
      assert Rank([x], 0, sel) == -1.0;
      assert Accepts(cfg.(budget := 2), [x], [1], sel, 0);
    }
  }

  /**
   * The loop stops only when the budget is used, when the farthest candidate does not fit, or when
   * every remaining candidate is closer than `dupFloor` to a kept one.
   */
  lemma StopReasons(cfg: RetainConfig, xs: seq<Vec>, lens: seq<nat>, sel: seq<nat>)
    requires |lens| == |xs| && sel != [] && Below(sel, |xs|) && Stopped(cfg, xs, lens, sel)
    ensures || Used(lens, sel) >= cfg.budget
            || (exists nxt: nat :: Farthest(xs, sel, nxt) && Used(lens, sel) + lens[nxt] > cfg.budget)
            || forall j | 0 <= j < |xs| && j !in sel ::
              exists i :: 0 <= i < |sel| && Distance(xs[j], xs[sel[i]]) < cfg.dupFloor
  {
    hide MinDist, Distance, Used, Below;
    if Used(lens, sel) < cfg.budget {
      var nxt: nat :| Farthest(xs, sel, nxt) && (Rank(xs, nxt, sel) < cfg.dupFloor
                                                 || Used(lens, sel) + lens[nxt] > cfg.budget);
      if Used(lens, sel) + lens[nxt] <= cfg.budget {
        RestIsClose(cfg, xs, sel, nxt);
      }
    }
  }

  lemma RestIsClose(cfg: RetainConfig, xs: seq<Vec>, sel: seq<nat>, nxt: nat)
    requires sel != [] && Below(sel, |xs|) && Farthest(xs, sel, nxt) && Rank(xs, nxt, sel) < cfg.dupFloor
    ensures forall j | 0 <= j < |xs| && j !in sel ::
      exists i :: 0 <= i < |sel| && Distance(xs[j], xs[sel[i]]) < cfg.dupFloor
  {
    hide Distance;
    forall j | 0 <= j < |xs| && j !in sel
      ensures exists i :: 0 <= i < |sel| && Distance(xs[j], xs[sel[i]]) < cfg.dupFloor
    {
      assert Rank(xs, j, sel) <= Rank(xs, nxt, sel);
      MinDistIsClosest(xs, j, sel);
    }
  }

  // ---- the kept indices in order ------------------------------------------

  lemma {:induction false} UsedConcat(lens: seq<nat>, a: seq<nat>, b: seq<nat>)
    requires Below(a, |lens|) && Below(b, |lens|)
    ensures Used(lens, a + b) == Used(lens, a) + Used(lens, b)
  {
    if b == [] {
      assert a + b == a;
    } else {
      assert (a + b)[..|a + b| - 1] == a + b[..|b| - 1];
      UsedConcat(lens, a, b[..|b| - 1]);
    }
  }

  /** `sorted(sel)` for a selection without repetitions. */
  method SortSelection(ghost lens: seq<nat>, sel: seq<nat>) returns (keep: seq<nat>)
    requires Below(sel, |lens|) && forall i, j | 0 <= i < j < |sel| :: sel[i] != sel[j]
    ensures Increasing(keep) && Below(keep, |lens|) && |keep| == |sel|
    ensures forall x :: x in keep <==> x in sel
    ensures Used(lens, keep) == Used(lens, sel)
  {
    hide Used, Increasing;
    NothingSorted(lens);
    keep := [];
    var k := 0;
    assert sel[..0] == [];
    while k < |sel|
      invariant 0 <= k <= |sel| && Increasing(keep) && Below(keep, |lens|) && |keep| == k
      invariant forall x :: x in keep <==> x in sel[..k]
      invariant Used(lens, keep) == Used(lens, sel[..k])
    {
      var x := sel[k];
      assert x !in keep;
      var p := 0;
      while p < |keep| && keep[p] < x
        invariant 0 <= p <= |keep| && forall i | 0 <= i < p :: keep[i] < x
      {
        p := p + 1;
      }
      Inserted(lens, keep, p, x);
      assert sel[..k + 1] == sel[..k] + [x];
      UsedSnoc(lens, sel, k);
      keep := keep[..p] + [x] + keep[p..];
      k := k + 1;
    }
    assert sel[..k] == sel;
  }

  lemma NothingSorted(lens: seq<nat>)
    ensures Increasing([]) && Below([], |lens|) && Used(lens, []) == 0
  {
  }

  lemma UsedSnoc(lens: seq<nat>, sel: seq<nat>, k: nat)
    requires Below(sel, |lens|) && k < |sel|
    ensures Used(lens, sel[..k + 1]) == Used(lens, sel[..k]) + lens[sel[k]]
  {
    assert sel[..k + 1][..k] == sel[..k];
  }

  lemma Inserted(lens: seq<nat>, keep: seq<nat>, p: nat, x: nat)
    requires Increasing(keep) && Below(keep, |lens|) && x < |lens| && p <= |keep|
    requires x !in keep && (forall i | 0 <= i < p :: keep[i] < x) && (p < |keep| ==> x <= keep[p])
    ensures var r := keep[..p] + [x] + keep[p..];
            && Increasing(r) && Below(r, |lens|) && |r| == |keep| + 1
            && (forall y :: y in r <==> y in keep || y == x)
            && Used(lens, r) == Used(lens, keep) + lens[x]
  {
    hide Used;
    assert p < |keep| ==> keep[p] in keep;
    InsertKeepsOrder(keep, p, x);
    hide Increasing;
    forall y ensures y in keep[..p] + [x] + keep[p..] <==> y in keep || y == x {
      InsertMembers(keep, p, x, y);
    }
    UsedInserted(lens, keep, p, x);
  }

  lemma UsedInserted(lens: seq<nat>, keep: seq<nat>, p: nat, x: nat)
    requires Below(keep, |lens|) && x < |lens| && p <= |keep|
    ensures Used(lens, keep[..p] + [x] + keep[p..]) == Used(lens, keep) + lens[x]
  {
    assert keep == keep[..p] + keep[p..];
    UsedConcat(lens, keep[..p], keep[p..]);
    UsedConcat(lens, keep[..p] + [x], keep[p..]);
    assert (keep[..p] + [x])[..p] == keep[..p];
  }
}
