/**
 * What the running mean of the span leader covers: the tails its decisions found, one after another.
 * A token that a decision leaves pending is part of the next tail again, and counted again.
 */
module SpanMean {
  import opened Lists
  import opened Tokens
  import opened OpLog
  import opened Routed
  import opened SpanSplit
  import opened RoutedSpanSpec
  import opened SpanLeader

  ghost predicate TailsFit(sink: nat, log: seq<Op>, tails: seq<nat>, n: nat) {
    |tails| == |log| && forall k | 0 <= k < |log| :: TailStart(sink, log, k) + tails[k] <= n
  }

  /** The tokens of all tails that the decisions of a log found, tail after tail. */
  ghost function TailTokens<T>(sink: nat, log: seq<Op>, tails: seq<nat>, h: seq<T>): seq<T>
    requires |tails| == |log|
  {
    if log == [] then []
    else
      var n := |log| - 1;
      TailTokens(sink, log[..n], tails[..n], h) + Gone(h, TailStart(sink, log, n), tails[n])
  }

  /** The leader's count and mean are those of all the tails it has decided on. */
  ghost predicate MeanOk(cfg: Config, lead: Leader, h: seq<KV>, log: seq<Op>, tails: seq<nat>) {
    && TailsFit(cfg.sink, log, tails, |h|) && lead.gcnt == Total(tails)
    && IsMean(cfg.dim, lead.gmean, TailTokens(cfg.sink, log, tails, h))
  }

  /** The log of a deciding layer told by its tails: each is split by its decision, the mean covers them. */
  ghost predicate Told(cfg: Config, mask: Option<seq<bool>>, lead: Leader, h: seq<KV>, log: seq<Op>, tails: seq<nat>)
    requires cfg.Ok()
  {
    LogCut(cfg, mask, log, tails) && MeanOk(cfg, lead, h, log, tails)
  }

  lemma FreshTold(cfg: Config, mask: Option<seq<bool>>)
    requires cfg.Ok()
    ensures Told(cfg, mask, FreshLeader(cfg), [], [], [])
  {
    ZeroIsMean(cfg.dim);
  }

  lemma TailsFitPrefix(sink: nat, log: seq<Op>, tails: seq<nat>, h: nat, n: nat)
    requires TailsFit(sink, log, tails, h) && n <= |log|
    ensures TailsFit(sink, log[..n], tails[..n], h)
  {
    hide TailStart;
    forall k | 0 <= k < n ensures TailStart(sink, log[..n], k) + tails[..n][k] <= h {
      TailStartStays(sink, log[..n], log, k);
    }
  }

  lemma {:induction false} TailCount<T>(sink: nat, log: seq<Op>, tails: seq<nat>, h: seq<T>)
    requires TailsFit(sink, log, tails, |h|)
    ensures |tails| == |log| && |TailTokens(sink, log, tails, h)| == Total(tails)
  {
    hide TailStart;
    if log == [] {
    } else {
      TailsFitPrefix(sink, log, tails, |h|, |log| - 1);
      TailCount(sink, log[..|log| - 1], tails[..|log| - 1], h);
    }
  }

  lemma {:induction false} TailsStay<T>(sink: nat, log: seq<Op>, tails: seq<nat>, h: seq<T>, chunk: seq<T>)
    requires TailsFit(sink, log, tails, |h|)
    ensures TailTokens(sink, log, tails, h + chunk) == TailTokens(sink, log, tails, h)
  {
    hide TailStart;
    if log == [] {
    } else {
      var n := |log| - 1;
      TailsFitPrefix(sink, log, tails, |h|, n);
      TailsStay(sink, log[..n], tails[..n], h, chunk);
      var start := TailStart(sink, log, n);
      assert (h + chunk)[start..start + tails[n]] == h[start..start + tails[n]];
    }
  }

  lemma MeanSurvives(cfg: Config, lead: Leader, h: seq<KV>, log: seq<Op>, tails: seq<nat>, chunk: seq<KV>)
    requires MeanOk(cfg, lead, h, log, tails)
    ensures MeanOk(cfg, lead, h + chunk, log, tails)
  {
    hide IsMean, TailStart;
    TailsStay(cfg.sink, log, tails, h, chunk);
  }

  lemma ToldSurvives(cfg: Config, mask: Option<seq<bool>>, lead: Leader, h: seq<KV>, log: seq<Op>, tails: seq<nat>,
                     chunk: seq<KV>)
    requires cfg.Ok() && Told(cfg, mask, lead, h, log, tails)
    ensures Told(cfg, mask, lead, h + chunk, log, tails)
  {
    hide LogCut, MeanOk;
    MeanSurvives(cfg, lead, h, log, tails, chunk);
  }

  /** A decision adds its whole tail to what the mean covers. */
  lemma MeanFolds(cfg: Config, lead: Leader, h: seq<KV>, log: seq<Op>, tails: seq<nat>, op: Op, cut: seq<KV>,
                  lead': Leader)
    requires MeanOk(cfg, lead, h, log, tails) && cut != []
    requires cfg.sink + LogRouted(log) + |cut| <= |h| && cut == Gone(h, cfg.sink + LogRouted(log), |cut|)
    requires lead'.gcnt == lead.gcnt + |cut| && lead'.gmean == Absorb(cfg.dim, lead.gmean, lead.gcnt, cut)
    ensures MeanOk(cfg, lead', h, log + [op], tails + [|cut|])
  {
    hide IsMean, Absorb, TailsFit, TailTokens, LogRouted;
    TailCount(cfg.sink, log, tails, h);
    AbsorbIsMean(cfg.dim, lead.gmean, TailTokens(cfg.sink, log, tails, h), cut);
    TailJoins(cfg.sink, log, tails, op, |cut|, h);
    assert Total(tails + [|cut|]) == Total(tails) + |cut| by {
      assert (tails + [|cut|])[..|tails|] == tails;
    }
  }

  lemma TailJoins<T>(sink: nat, log: seq<Op>, tails: seq<nat>, op: Op, n: nat, h: seq<T>)
    requires TailsFit(sink, log, tails, |h|) && sink + LogRouted(log) + n <= |h|
    ensures TailsFit(sink, log + [op], tails + [n], |h|)
    ensures TailTokens(sink, log + [op], tails + [n], h)
         == TailTokens(sink, log, tails, h) + Gone(h, sink + LogRouted(log), n)
  {
    hide LogRouted, Gone;
    var more, lens := log + [op], tails + [n];
    assert more[..|log|] == log && lens[..|tails|] == tails;
    assert TailStart(sink, more, |log|) == sink + LogRouted(log);
    hide TailStart;
    forall k | 0 <= k < |more| ensures TailStart(sink, more, k) + lens[k] <= |h| {
      if k < |log| {
        TailStartStays(sink, log, more, k);
      }
    }
  }

  // ---- when every token is counted once -----------------------------------

  /** The tail that decision `k` found holds no break, or ends with one. */
  ghost predicate EndsAtBreak(cfg: Config, mask: Option<seq<bool>>, log: seq<Op>, tails: seq<nat>, k: nat)
    requires cfg.Ok() && k < |log| == |tails|
  {
    var start := TailStart(cfg.sink, log, k);
    || (tails[k] > 0 && IsBreak(cfg.Split(), mask, start, tails[k] - 1))
    || forall i | 0 <= i < tails[k] :: !IsBreak(cfg.Split(), mask, start, i)
  }

  /** A decision leaves nothing pending exactly when its tail ends at a break or holds none. */
  lemma NothingLeftIff(cfg: Config, mask: Option<seq<bool>>, log: seq<Op>, tails: seq<nat>, k: nat)
    requires cfg.Ok() && LogCut(cfg, mask, log, tails) && k < |log|
    ensures log[k].RouteSpan? && log[k].routed <= tails[k]
    ensures log[k].routed == tails[k] <==> EndsAtBreak(cfg, mask, log, tails, k)
  {
    assert SplitAt(cfg, mask, log, k, tails[k]);
    hide IsBreak, EndsAtBreaks, SpanOk, TailStart, LogCut;
  }

  ghost predicate AllEndAtBreaks(cfg: Config, mask: Option<seq<bool>>, log: seq<Op>, tails: seq<nat>, n: nat)
    requires cfg.Ok() && n <= |log| == |tails|
  {
    forall k | 0 <= k < n :: EndsAtBreak(cfg, mask, log, tails, k)
  }

  /** The mean counts no token twice among the first `n` decisions exactly when none left a tail. */
  lemma {:induction false} CountIsRoutedIff(cfg: Config, mask: Option<seq<bool>>, log: seq<Op>, tails: seq<nat>, n: nat)
    requires cfg.Ok() && LogCut(cfg, mask, log, tails) && n <= |log| == |tails|
    ensures LogRouted(log[..n]) <= Total(tails[..n])
    ensures Total(tails[..n]) == LogRouted(log[..n]) <==> AllEndAtBreaks(cfg, mask, log, tails, n)
  {
    hide EndsAtBreak, LogCut, LogRouted, Total;
    if n == 0 {
      NothingYet(log, tails);
    } else {
      CountIsRoutedIff(cfg, mask, log, tails, n - 1);
      NothingLeftIff(cfg, mask, log, tails, n - 1);
      SumsNext(log, tails, n - 1);
    }
  }

  lemma NothingYet(log: seq<Op>, tails: seq<nat>)
    ensures LogRouted(log[..0]) == Total(tails[..0]) == 0
  {
  }

  lemma SumsNext(log: seq<Op>, tails: seq<nat>, n: nat)
    requires n < |log| == |tails| && log[n].RouteSpan?
    ensures LogRouted(log[..n + 1]) == LogRouted(log[..n]) + log[n].routed
    ensures Total(tails[..n + 1]) == Total(tails[..n]) + tails[n]
  {
    assert log[..n + 1][..n] == log[..n] && tails[..n + 1][..n] == tails[..n];
  }

  /** While no decision leaves a tail, the tails lie end to end in the history. */
  lemma {:induction false} TailsAreHistory<T>(cfg: Config, mask: Option<seq<bool>>, log: seq<Op>, tails: seq<nat>,
                                              h: seq<T>)
    requires cfg.Ok() && LogCut(cfg, mask, log, tails) && TailsFit(cfg.sink, log, tails, |h|)
    requires AllEndAtBreaks(cfg, mask, log, tails, |log|) && cfg.sink + LogRouted(log) <= |h|
    ensures TailTokens(cfg.sink, log, tails, h) == h[cfg.sink..cfg.sink + LogRouted(log)]
  {
    hide EndsAtBreak, SplitAt, TailTokens, AllEndAtBreaks, TailsFit;
    if log == [] {
      assert TailTokens(cfg.sink, log, tails, h) == [] by {
        NoTails(cfg.sink, log, tails, h);
      }
    } else {
      var n := |log| - 1;
      NothingLeftIff(cfg, mask, log, tails, n);
      TailsFitPrefix(cfg.sink, log, tails, |h|, n);
      LogCutPrefix(cfg, mask, log, tails, n);
      LastEnds(cfg, mask, log, tails);
      EndsElsewhere(cfg, mask, log, tails, n);
      SumsNext(log, tails, n);
      assert log[..n + 1] == log;
      LastTail(cfg.sink, log, tails, h);
      TailsAreHistory(cfg, mask, log[..n], tails[..n], h);
    }
  }

  lemma NoTails<T>(sink: nat, log: seq<Op>, tails: seq<nat>, h: seq<T>)
    requires log == [] && tails == []
    ensures TailTokens(sink, log, tails, h) == []
  {
  }

  lemma LastEnds(cfg: Config, mask: Option<seq<bool>>, log: seq<Op>, tails: seq<nat>)
    requires cfg.Ok() && log != [] && |tails| == |log| && AllEndAtBreaks(cfg, mask, log, tails, |log|)
    ensures EndsAtBreak(cfg, mask, log, tails, |log| - 1) && AllEndAtBreaks(cfg, mask, log, tails, |log| - 1)
  {
    hide EndsAtBreak;
  }

  lemma EndsElsewhere(cfg: Config, mask: Option<seq<bool>>, log: seq<Op>, tails: seq<nat>, n: nat)
    requires cfg.Ok() && n <= |log| == |tails| && AllEndAtBreaks(cfg, mask, log, tails, n)
    ensures AllEndAtBreaks(cfg, mask, log[..n], tails[..n], n)
  {
    hide TailStart, IsBreak;
    forall k | 0 <= k < n ensures EndsAtBreak(cfg, mask, log[..n], tails[..n], k) {
      assert EndsAtBreak(cfg, mask, log, tails, k);
      TailStartStays(cfg.sink, log[..n], log, k);
    }
  }

  /** Where the last tail ended: all tokens up to there have been part of some tail. */
  ghost function Reached(cfg: Config, log: seq<Op>, tails: seq<nat>): nat
    requires log != [] && |tails| == |log|
  {
    TailStart(cfg.sink, log, |log| - 1) + tails[|log| - 1]
  }

  /**
   * The mean covers every token up to the end of the last tail exactly once -- exactly when no decision
   * before the last one left a tail.
   */
  lemma EachOnceIff<T>(cfg: Config, mask: Option<seq<bool>>, log: seq<Op>, tails: seq<nat>, h: seq<T>)
    requires cfg.Ok() && LogCut(cfg, mask, log, tails) && TailsFit(cfg.sink, log, tails, |h|) && log != []
    ensures cfg.sink <= Reached(cfg, log, tails) <= |h|
    ensures TailTokens(cfg.sink, log, tails, h) == h[cfg.sink..Reached(cfg, log, tails)]
       <==> AllEndAtBreaks(cfg, mask, log, tails, |log| - 1)
  {
    hide EndsAtBreak, AllEndAtBreaks, SplitAt, LogRouted, Total, TailTokens;
    var n := |log| - 1;
    NothingLeftIff(cfg, mask, log, tails, n);
    CountIsRoutedIff(cfg, mask, log, tails, n);
    SumsNext(log, tails, n);
    assert log[..n + 1] == log && tails[..n + 1] == tails;
    hide LogCut, TailsFit;
    if AllEndAtBreaks(cfg, mask, log, tails, n) {
      EachOnce(cfg, mask, log, tails, h);
    } else {
      TailCount(cfg.sink, log, tails, h);
      assert |TailTokens(cfg.sink, log, tails, h)| != |h[cfg.sink..Reached(cfg, log, tails)]|;
    }
  }

  lemma EachOnce<T>(cfg: Config, mask: Option<seq<bool>>, log: seq<Op>, tails: seq<nat>, h: seq<T>)
    requires cfg.Ok() && LogCut(cfg, mask, log, tails) && TailsFit(cfg.sink, log, tails, |h|) && log != []
    requires AllEndAtBreaks(cfg, mask, log, tails, |log| - 1)
    ensures cfg.sink <= Reached(cfg, log, tails) <= |h|
    ensures TailTokens(cfg.sink, log, tails, h) == h[cfg.sink..Reached(cfg, log, tails)]
  {
    hide EndsAtBreak, AllEndAtBreaks, SplitAt, LogRouted, Total, TailTokens;
    var n := |log| - 1;
    TailsFitPrefix(cfg.sink, log, tails, |h|, n);
    LogCutPrefix(cfg, mask, log, tails, n);
    EndsElsewhere(cfg, mask, log, tails, n);
    LastTail(cfg.sink, log, tails, h);
    TailsAreHistory(cfg, mask, log[..n], tails[..n], h);
  }

  lemma LastTail<T>(sink: nat, log: seq<Op>, tails: seq<nat>, h: seq<T>)
    requires log != [] && TailsFit(sink, log, tails, |h|)
    ensures var n := |log| - 1; var start := TailStart(sink, log, n);
            start + tails[n] <= |h|
            && TailTokens(sink, log, tails, h) == TailTokens(sink, log[..n], tails[..n], h) + h[start..start + tails[n]]
  {
    hide TailStart;
  }

  // ---- an input on which tokens are counted twice --------------------------

  /** Token `x` with equal key and value. */
  function Scalar(x: real): KV { KV([x], [x]) }

  lemma TwoTails(log: seq<Op>, first: seq<Op>, h: seq<KV>)
    requires |log| == 2 && |first| == 1 && first <= log && LogRouted(first) == 2
    requires h == [Scalar(0.0), Scalar(0.0), Scalar(1.0), Scalar(0.0)]
    ensures Total([3, 2]) == 5
    ensures TailTokens(0, log, [3, 2], h) == [Scalar(0.0), Scalar(0.0), Scalar(1.0), Scalar(1.0), Scalar(0.0)]
  {
    hide Scalar, LogRouted;
    var tails: seq<nat> := [3, 2];
    assert log[..1] == first && first[..0] == [] && tails[..1] == [3] && tails[..1][..0] == [];
    NothingYet(first, [3]);
    assert TailTokens(0, first, [3], h) == h[0..3];
    assert TailTokens(0, log, tails, h) == h[0..3] + h[2..4];
    assert Total(tails) == Total([3]) + 2;
  }

  lemma NotTheMean(m: KV)
    requires IsMean(1, m, [Scalar(0.0), Scalar(0.0), Scalar(1.0), Scalar(1.0), Scalar(0.0)])
    ensures !IsMean(1, m, [Scalar(0.0), Scalar(0.0), Scalar(1.0), Scalar(0.0)])
  {
    var x := Tokens.Coord(m, Key, 0);
    TimesIsProduct(x, 5);
    TimesIsProduct(x, 4);
    var three := [Scalar(0.0), Scalar(0.0), Scalar(1.0)];
    var four, five := three + [Scalar(0.0)], three + [Scalar(1.0)] + [Scalar(0.0)];
    SumOne(three, Scalar(0.0));
    SumOne(three, Scalar(1.0));
    SumOne(three + [Scalar(1.0)], Scalar(0.0));
    SumOne([Scalar(0.0), Scalar(0.0)], Scalar(1.0));
    SumOne([Scalar(0.0)], Scalar(0.0));
    SumOne([], Scalar(0.0));
    hide Sum, Times;
    assert three == [Scalar(0.0), Scalar(0.0)] + [Scalar(1.0)]
        && [Scalar(0.0), Scalar(0.0)] == [Scalar(0.0)] + [Scalar(0.0)];
    assert [Scalar(0.0)] == [] + [Scalar(0.0)];
    assert four == [Scalar(0.0), Scalar(0.0), Scalar(1.0), Scalar(0.0)];
    assert five == [Scalar(0.0), Scalar(0.0), Scalar(1.0), Scalar(1.0), Scalar(0.0)];
  }

  lemma SumOne(ts: seq<KV>, t: KV)
    ensures Sum(ts + [t], Key, 0) == Sum(ts, Key, 0) + Tokens.Coord(t, Key, 0) && Sum([], Key, 0) == 0.0
  {
    assert (ts + [t])[..|ts|] == ts;
  }
}
