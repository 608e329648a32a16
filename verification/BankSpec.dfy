/** BankedRingLayer as a function of its state, the incoming chunk and the op log. */
module BankSpec {
  import opened Lists
  import opened Tokens
  import opened Eviction
  import opened OpLog

  datatype Config = Config(dim: nat, sink: nat, window: nat, kStates: nat, seg: nat, reps: nat,
                           cos: (Vec, Vec) -> real)
  {
    predicate Ok() { kStates >= 1 && seg >= 1 }

    /** Exact tokens kept next to the mean of a segment of `n` tokens. */
    function RepsFor(n: nat): nat { Min(Max(reps - 1, 0), n) }

    predicate SameLimits(o: Config) {
      sink == o.sink && window == o.window && kStates == o.kStates && seg == o.seg && reps == o.reps
    }
  }

  datatype Segment = Segment(start: nat, end: nat, count: nat, mean: KV, reps: seq<KV>, repAbs: seq<nat>)

  datatype Bank = Bank(win: Window<KV>, folded: nat, seen: nat, segs: seq<Segment>, cursor: nat)

  const Empty := Bank(Window([], [], []), 0, 0, [], 0)

  function Shift(idx: seq<nat>, offset: nat): (r: seq<nat>)
    ensures |r| == |idx| && forall i | 0 <= i < |idx| :: r[i] == idx[i] + offset
  {
    seq(|idx|, i requires 0 <= i < |idx| => idx[i] + offset)
  }

  /** How many times `seg` tokens can be taken from `n`. */
  function Fills(n: nat, seg: nat): nat
    requires seg >= 1
  {
    if n < seg then 0 else 1 + Fills(n - seg, seg)
  }

  predicate Whole(n: nat, seg: nat)
    requires seg >= 1
  {
    if n < seg then n == 0 else Whole(n - seg, seg)
  }

  predicate FoldFits(cfg: Config, kept: seq<nat>) {
    Increasing(kept) && Below(kept, cfg.seg) && |kept| == cfg.RepsFor(cfg.seg)
  }

  /** The oldest `seg` pending tokens become one segment: their mean and the kept exact tokens. */
  ghost function FoldOne(cfg: Config, b: Bank, kept: seq<nat>): Bank
    requires cfg.Ok() && |b.win.pend| >= cfg.seg && FoldFits(cfg, kept)
  {
    var cut := b.win.pend[..cfg.seg];
    var start := cfg.sink + b.folded;
    var s := Segment(start, start + cfg.seg, cfg.seg, MeanOf(cfg.dim, cut),
                     Select(cut, kept), Shift(kept, start));
    b.(win := b.win.(pend := b.win.pend[cfg.seg..]), folded := b.folded + cfg.seg, segs := b.segs + [s],
       cursor := if cfg.reps > 1 then b.cursor + 1 else b.cursor)
  }

  ghost function FoldStep(cfg: Config, b: Bank, log: seq<Op>): Outcome<Bank>
    requires cfg.Ok() && |b.win.pend| >= cfg.seg
  {
    if cfg.reps <= 1 then Done(FoldOne(cfg, b, []))
    else if b.cursor >= |log| then Raised(LogExhausted)
    else if !log[b.cursor].Fold? then Raised(Desync)
    else if !FoldFits(cfg, log[b.cursor].kept) then Raised(Misfit)
    else Done(FoldOne(cfg, b, log[b.cursor].kept))
  }

  ghost function AfterFolds(cfg: Config, b: Bank, log: seq<Op>, n: nat): Outcome<Bank>
    requires cfg.Ok()
  {
    if n == 0 then Done(b)
    else
      var prev := AfterFolds(cfg, b, log, n - 1);
      if prev.Raised? then prev
      else if |prev.value.win.pend| < cfg.seg then Raised(Misfit)
      else FoldStep(cfg, prev.value, log)
  }

  predicate MergeFits(cfg: Config, segs: seq<Segment>, pair: nat, keep: seq<nat>) {
    && pair + 1 < |segs|
    && Increasing(keep) && Below(keep, |segs[pair].reps + segs[pair + 1].reps|)
    && Below(keep, |segs[pair].repAbs + segs[pair + 1].repAbs|)
    && |keep| == cfg.RepsFor(|segs[pair].reps + segs[pair + 1].reps|)
    && segs[pair].count + segs[pair + 1].count > 0
  }

  ghost function Joined(cfg: Config, segs: seq<Segment>, pair: nat, keep: seq<nat>): Segment
    requires MergeFits(cfg, segs, pair, keep)
  {
    var a, b := segs[pair], segs[pair + 1];
    Segment(a.start, b.end, a.count + b.count, MergeMeans(cfg.dim, a.mean, a.count, b.mean, b.count),
            Select(a.reps + b.reps, keep), Select(a.repAbs + b.repAbs, keep))
  }

  ghost function MergeStep(cfg: Config, b: Bank, log: seq<Op>): Outcome<Bank> {
    if b.cursor >= |log| then Raised(LogExhausted)
    else if !log[b.cursor].Merge? then Raised(Desync)
    else
      var pair, keep := log[b.cursor].pair, log[b.cursor].keep;
      if !MergeFits(cfg, b.segs, pair, keep) then Raised(Misfit)
      else Done(b.(segs := b.segs[..pair] + [Joined(cfg, b.segs, pair, keep)] + b.segs[pair + 2..],
                   cursor := b.cursor + 1))
  }

  ghost function AfterMerges(cfg: Config, b: Bank, log: seq<Op>, n: nat): Outcome<Bank> {
    if n == 0 then Done(b)
    else
      var prev := AfterMerges(cfg, b, log, n - 1);
      if prev.Raised? then prev else MergeStep(cfg, prev.value, log)
  }

  ghost function Admitted(cfg: Config, b: Bank, chunk: seq<KV>): Bank
    requires |b.win.sink| <= cfg.sink
  {
    b.(win := Admit(cfg.sink, cfg.window, b.win, chunk), seen := b.seen + |chunk|)
  }

  /** Fold every full segment, then merge down to `k_states` segments. */
  ghost function Settle(cfg: Config, a: Bank, log: seq<Op>): Outcome<Bank>
    requires cfg.Ok()
  {
    var f := AfterFolds(cfg, a, log, Fills(|a.win.pend|, cfg.seg));
    if f.Raised? then f else AfterMerges(cfg, f.value, log, Max(0, |f.value.segs| - cfg.kStates))
  }

  /** One update: admit the chunk, then fold and merge. */
  ghost function Step(cfg: Config, b: Bank, chunk: seq<KV>, log: seq<Op>): Outcome<Bank>
    requires cfg.Ok() && |b.win.sink| <= cfg.sink
  {
    Settle(cfg, Admitted(cfg, b, chunk), log)
  }

  /** sink, then mean and exact tokens of each segment, then pending, then ring. */
  function Slots(segs: seq<Segment>): seq<KV> {
    if segs == [] then [] else Slots(segs[..|segs| - 1]) + ([segs[|segs| - 1].mean] + segs[|segs| - 1].reps)
  }

  function Materialized(b: Bank): seq<KV> {
    b.win.sink + Slots(b.segs) + b.win.pend + b.win.ring
  }

  // ---- what every reachable state satisfies -------------------------------

  ghost predicate SegmentOk(cfg: Config, s: Segment, h: seq<KV>) {
    && s.start < s.end <= |h| && s.count == s.end - s.start
    && IsMean(cfg.dim, s.mean, h[s.start..s.end])
    && |s.reps| == |s.repAbs| == cfg.RepsFor(s.count)
    && Increasing(s.repAbs)
    && forall i | 0 <= i < |s.repAbs| :: s.start <= s.repAbs[i] < s.end && s.reps[i] == h[s.repAbs[i]]
  }

  /** The segments cover [from, to) without gap or overlap, in order. */
  ghost predicate Tiles(segs: seq<Segment>, from: nat, to: nat) {
    && (segs == [] ==> from == to)
    && (segs != [] ==> segs[0].start == from && segs[|segs| - 1].end == to)
    && forall i | 0 <= i < |segs| - 1 :: segs[i].end == segs[i + 1].start
  }

  ghost predicate Sound(cfg: Config, b: Bank, h: seq<KV>) {
    && Holds(cfg.sink, cfg.window, b.win, b.folded, h)
    && b.seen == |h|
    && Tiles(b.segs, cfg.sink, cfg.sink + b.folded)
    && forall i | 0 <= i < |b.segs| :: SegmentOk(cfg, b.segs[i], h)
  }

  /** Between two updates the pending tail is short of a segment and the segment count is settled. */
  ghost predicate Settled(cfg: Config, b: Bank)
    requires cfg.Ok()
  {
    && |b.win.pend| < cfg.seg
    && Whole(b.folded, cfg.seg)
    && |b.segs| == Min(cfg.kStates, Fills(b.folded, cfg.seg))
  }

  lemma AdmittedSound(cfg: Config, b: Bank, h: seq<KV>, chunk: seq<KV>)
    requires Sound(cfg, b, h)
    ensures Sound(cfg, Admitted(cfg, b, chunk), h + chunk)
  {
    AdmitHolds(cfg.sink, cfg.window, b.win, b.folded, h, chunk);
    forall i | 0 <= i < |b.segs| ensures SegmentOk(cfg, b.segs[i], h + chunk) {
      var s := b.segs[i];
      assert SegmentOk(cfg, s, h);
      assert (h + chunk)[s.start..s.end] == h[s.start..s.end];
    }
  }

  lemma FreshSegmentOk(cfg: Config, cut: seq<KV>, start: nat, kept: seq<nat>, h: seq<KV>)
    requires cfg.Ok() && FoldFits(cfg, kept) && start + cfg.seg <= |h| && cut == h[start..start + cfg.seg]
    ensures SegmentOk(cfg, Segment(start, start + cfg.seg, cfg.seg, MeanOf(cfg.dim, cut),
                                   Select(cut, kept), Shift(kept, start)), h)
  {
    MeanOfIsMean(cfg.dim, cut);
    forall i | 0 <= i < |kept| ensures Select(cut, kept)[i] == h[Shift(kept, start)[i]] {
      assert cut[kept[i]] == h[start + kept[i]];
    }
  }

  lemma TilesExtend(segs: seq<Segment>, from: nat, to: nat, s: Segment)
    requires Tiles(segs, from, to) && s.start == to
    ensures Tiles(segs + [s], from, s.end)
  {
  }

  lemma FoldOneSound(cfg: Config, b: Bank, h: seq<KV>, kept: seq<nat>)
    requires cfg.Ok() && Sound(cfg, b, h) && |b.win.pend| >= cfg.seg && FoldFits(cfg, kept)
    ensures Sound(cfg, FoldOne(cfg, b, kept), h)
  {
    hide Holds, Tiles, SegmentOk, Increasing, MeanOf;
    var start := cfg.sink + b.folded;
    ReleaseHolds(cfg.sink, cfg.window, b.win, b.folded, h, cfg.seg);
    assert h[start..][..cfg.seg] == h[start..start + cfg.seg];
    FreshSegmentOk(cfg, b.win.pend[..cfg.seg], start, kept, h);
    var s := FoldOne(cfg, b, kept).segs[|b.segs|];
    TilesExtend(b.segs, cfg.sink, start, s);
    forall i | 0 <= i < |b.segs + [s]| ensures SegmentOk(cfg, (b.segs + [s])[i], h) {
      if i < |b.segs| {
        assert (b.segs + [s])[i] == b.segs[i];
      }
    }
  }

  lemma PoolInOrder(x: Segment, y: Segment, h: seq<KV>, pool: seq<KV>, poolAbs: seq<nat>)
    requires pool == x.reps + y.reps && poolAbs == x.repAbs + y.repAbs
    requires |x.reps| == |x.repAbs| && |y.reps| == |y.repAbs|
    requires x.start < x.end == y.start < y.end <= |h| && Increasing(x.repAbs) && Increasing(y.repAbs)
    requires forall i | 0 <= i < |x.repAbs| :: x.start <= x.repAbs[i] < x.end && x.reps[i] == h[x.repAbs[i]]
    requires forall i | 0 <= i < |y.repAbs| :: y.start <= y.repAbs[i] < y.end && y.reps[i] == h[y.repAbs[i]]
    ensures Increasing(poolAbs)
    ensures forall i | 0 <= i < |poolAbs| :: x.start <= poolAbs[i] < y.end && pool[i] == h[poolAbs[i]]
  {
  }

  lemma JoinedOk(cfg: Config, b: Bank, h: seq<KV>, pair: nat, keep: seq<nat>)
    requires Sound(cfg, b, h) && MergeFits(cfg, b.segs, pair, keep)
    ensures SegmentOk(cfg, Joined(cfg, b.segs, pair, keep), h)
  {
    var x, y := b.segs[pair], b.segs[pair + 1];
    assert SegmentOk(cfg, x, h) && SegmentOk(cfg, y, h) && x.end == y.start;
    hide Sound, SegmentOk;
    PairOk(cfg, x, y, h, keep, Joined(cfg, b.segs, pair, keep));
  }

  lemma PairOk(cfg: Config, x: Segment, y: Segment, h: seq<KV>, keep: seq<nat>, j: Segment)
    requires SegmentOk(cfg, x, h) && SegmentOk(cfg, y, h) && x.end == y.start
    requires Increasing(keep) && Below(keep, |x.reps + y.reps|) && |keep| == cfg.RepsFor(|x.reps + y.reps|)
    requires Below(keep, |x.repAbs + y.repAbs|) && x.count + y.count > 0
    requires j == Segment(x.start, y.end, x.count + y.count, MergeMeans(cfg.dim, x.mean, x.count, y.mean, y.count),
                          Select(x.reps + y.reps, keep), Select(x.repAbs + y.repAbs, keep))
    ensures SegmentOk(cfg, j, h)
  {
    hide IsMean, MergeMeans;
    Adjacent(h, x.start, x.end, y.end);
    MergeIsMean(cfg.dim, x.mean, h[x.start..x.end], y.mean, h[y.start..y.end]);
    PoolInOrder(x, y, h, x.reps + y.reps, x.repAbs + y.repAbs);
  }

  lemma TilesJoin(segs: seq<Segment>, from: nat, to: nat, pair: nat, s: Segment)
    requires Tiles(segs, from, to) && pair + 1 < |segs|
    requires s.start == segs[pair].start && s.end == segs[pair + 1].end
    ensures Tiles(segs[..pair] + [s] + segs[pair + 2..], from, to)
  {
  }

  lemma MergeSound(cfg: Config, b: Bank, h: seq<KV>, log: seq<Op>)
    requires Sound(cfg, b, h) && MergeStep(cfg, b, log).Done?
    ensures Sound(cfg, MergeStep(cfg, b, log).value, h)
    ensures |MergeStep(cfg, b, log).value.segs| == |b.segs| - 1
  {
    hide Tiles, SegmentOk, Holds, Increasing, Below;
    var r := MergeStep(cfg, b, log).value;
    var pair, keep := log[b.cursor].pair, log[b.cursor].keep;
    JoinedOk(cfg, b, h, pair, keep);
    TilesJoin(b.segs, cfg.sink, cfg.sink + b.folded, pair, Joined(cfg, b.segs, pair, keep));
    hide MergeFits;
    forall i | 0 <= i < |r.segs| ensures SegmentOk(cfg, r.segs[i], h) {
      if i > pair {
        assert r.segs[i] == b.segs[i + 1];
      }
    }
  }

  lemma {:induction false} FoldsSound(cfg: Config, b: Bank, h: seq<KV>, log: seq<Op>, n: nat)
    requires cfg.Ok() && Sound(cfg, b, h) && AfterFolds(cfg, b, log, n).Done?
    ensures Sound(cfg, AfterFolds(cfg, b, log, n).value, h)
  {
    if n == 0 {
    } else {
      FoldsSound(cfg, b, h, log, n - 1);
      var prev := AfterFolds(cfg, b, log, n - 1).value;
      FoldOneSound(cfg, prev, h, if cfg.reps <= 1 then [] else log[prev.cursor].kept);
    }
  }

  lemma {:induction false} FoldsCount(cfg: Config, b: Bank, log: seq<Op>, n: nat)
    requires cfg.Ok() && AfterFolds(cfg, b, log, n).Done?
    ensures var r := AfterFolds(cfg, b, log, n).value;
            && |r.segs| == |b.segs| + n
            && Fills(|b.win.pend|, cfg.seg) == n + Fills(|r.win.pend|, cfg.seg)
            && Fills(r.folded, cfg.seg) == Fills(b.folded, cfg.seg) + n
  {
    if n == 0 {
    } else {
      hide FoldStep, Fills;
      FoldsCount(cfg, b, log, n - 1);
      FoldCounts(cfg, AfterFolds(cfg, b, log, n - 1).value, log);
    }
  }

  lemma FoldCounts(cfg: Config, b: Bank, log: seq<Op>)
    requires cfg.Ok() && |b.win.pend| >= cfg.seg && FoldStep(cfg, b, log).Done?
    ensures var r := FoldStep(cfg, b, log).value;
            && |r.segs| == |b.segs| + 1 && Fills(|b.win.pend|, cfg.seg) == 1 + Fills(|r.win.pend|, cfg.seg)
            && Fills(r.folded, cfg.seg) == Fills(b.folded, cfg.seg) + 1
  {
    hide FoldFits;
  }

  lemma {:induction false} FoldsStayWhole(cfg: Config, b: Bank, log: seq<Op>, n: nat)
    requires cfg.Ok() && Whole(b.folded, cfg.seg) && AfterFolds(cfg, b, log, n).Done?
    ensures Whole(AfterFolds(cfg, b, log, n).value.folded, cfg.seg)
  {
    if n == 0 {
    } else {
      FoldsStayWhole(cfg, b, log, n - 1);
    }
  }

  lemma {:induction false} MergesSound(cfg: Config, b: Bank, h: seq<KV>, log: seq<Op>, n: nat)
    requires Sound(cfg, b, h) && AfterMerges(cfg, b, log, n).Done?
    ensures var r := AfterMerges(cfg, b, log, n).value;
            Sound(cfg, r, h) && |r.segs| == |b.segs| - n && r.win == b.win && r.folded == b.folded && r.seen == b.seen
  {
    if n == 0 {
    } else {
      MergesSound(cfg, b, h, log, n - 1);
      MergeSound(cfg, AfterMerges(cfg, b, log, n - 1).value, h, log);
    }
  }

  lemma {:induction false} FillsIsQuotient(n: nat, seg: nat)
    requires seg >= 1
    ensures Fills(n, seg) * seg <= n < Fills(n, seg) * seg + seg
    ensures Whole(n, seg) <==> n == Fills(n, seg) * seg
  {
    if n >= seg {
      FillsIsQuotient(n - seg, seg);
      assert Fills(n, seg) * seg == Fills(n - seg, seg) * seg + seg;
    }
  }

  lemma {:induction false} FoldedUnique(f1: nat, p1: nat, f2: nat, p2: nat, seg: nat)
    requires seg >= 1 && p1 < seg && p2 < seg && Whole(f1, seg) && Whole(f2, seg) && f1 + p1 == f2 + p2
    ensures f1 == f2
  {
    if f1 >= seg && f2 >= seg {
      FoldedUnique(f1 - seg, p1, f2 - seg, p2, seg);
    }
  }

  lemma MergesSettle(cfg: Config, f: Bank, h: seq<KV>, log: seq<Op>, before: nat, n: nat)
    requires cfg.Ok() && Sound(cfg, f, h) && |f.win.pend| < cfg.seg && Whole(f.folded, cfg.seg)
    requires Fills(f.folded, cfg.seg) == before + n && |f.segs| == Min(cfg.kStates, before) + n
    requires AfterMerges(cfg, f, log, Max(0, |f.segs| - cfg.kStates)).Done?
    ensures var r := AfterMerges(cfg, f, log, Max(0, |f.segs| - cfg.kStates)).value;
            Sound(cfg, r, h) && Settled(cfg, r)
  {
    MergesSound(cfg, f, h, log, Max(0, |f.segs| - cfg.kStates));
  }

  lemma FoldMergeSound(cfg: Config, a: Bank, h: seq<KV>, log: seq<Op>)
    requires cfg.Ok() && Sound(cfg, a, h) && Whole(a.folded, cfg.seg)
    requires |a.segs| == Min(cfg.kStates, Fills(a.folded, cfg.seg))
    requires Settle(cfg, a, log).Done?
    ensures Sound(cfg, Settle(cfg, a, log).value, h) && Settled(cfg, Settle(cfg, a, log).value)
  {
    hide Sound, AfterFolds, AfterMerges;
    var n := Fills(|a.win.pend|, cfg.seg);
    FoldsSound(cfg, a, h, log, n);
    FoldsCount(cfg, a, log, n);
    FoldsStayWhole(cfg, a, log, n);
    MergesSettle(cfg, AfterFolds(cfg, a, log, n).value, h, log, Fills(a.folded, cfg.seg), n);
  }

  /** One update keeps every segment exact and leaves the bank settled, whoever decided the ops. */
  lemma StepSound(cfg: Config, b: Bank, h: seq<KV>, chunk: seq<KV>, log: seq<Op>)
    requires cfg.Ok() && Sound(cfg, b, h) && Settled(cfg, b) && Step(cfg, b, chunk, log).Done?
    ensures Sound(cfg, Step(cfg, b, chunk, log).value, h + chunk)
    ensures Settled(cfg, Step(cfg, b, chunk, log).value)
  {
    AdmittedSound(cfg, b, h, chunk);
    hide Sound, Admit, Settle, Fills, Whole;
    FoldMergeSound(cfg, Admitted(cfg, b, chunk), h + chunk, log);
  }

  /**
   * Every length and the number of folded tokens is a function of how many tokens were seen,
   * so two runs over equally long streams agree on them however the streams were cut.
   */
  lemma LengthsIgnoreChunking(cfg: Config, b1: Bank, h1: seq<KV>, b2: Bank, h2: seq<KV>)
    requires cfg.Ok() && |h1| == |h2|
    requires Sound(cfg, b1, h1) && Settled(cfg, b1) && Sound(cfg, b2, h2) && Settled(cfg, b2)
    ensures b1.folded == b2.folded && |b1.segs| == |b2.segs|
    ensures |b1.win.sink| == |b2.win.sink| && |b1.win.pend| == |b2.win.pend| && |b1.win.ring| == |b2.win.ring|
  {
    FoldedUnique(b1.folded, |b1.win.pend|, b2.folded, |b2.win.pend|, cfg.seg);
  }

  lemma {:induction false} SlotsBound(cfg: Config, segs: seq<Segment>, h: seq<KV>)
    requires forall i | 0 <= i < |segs| :: SegmentOk(cfg, segs[i], h)
    ensures |Slots(segs)| <= |segs| * Max(1, cfg.reps)
  {
    if segs == [] {
    } else {
      SlotsBound(cfg, segs[..|segs| - 1], h);
      assert |segs| * Max(1, cfg.reps) == (|segs| - 1) * Max(1, cfg.reps) + Max(1, cfg.reps);
    }
  }

  lemma MoreSegments(m: nat, n: nat, each: nat)
    requires m <= n
    ensures m * each <= n * each
  {
    assert (n - m) * each >= 0;
  }

  /** Flat memory: the materialised cache is bounded whatever the history. */
  lemma FlatMemory(cfg: Config, b: Bank, h: seq<KV>)
    requires cfg.Ok() && Sound(cfg, b, h) && Settled(cfg, b)
    ensures |Materialized(b)| <= cfg.sink + cfg.kStates * Max(1, cfg.reps) + (cfg.seg - 1) + cfg.window
  {
    SlotsBound(cfg, b.segs, h);
    MoreSegments(|b.segs|, cfg.kStates, Max(1, cfg.reps));
  }

  // ---- what the stored keys are -------------------------------------------

  /** How many keys the first `i` segments store: a mean and the kept tokens of each. */
  function Stored(segs: seq<Segment>, i: nat): nat
    requires i <= |segs|
  {
    if i == 0 then 0 else Stored(segs, i - 1) + 1 + |segs[i - 1].reps|
  }

  /** At `at` the keys hold the mean of a segment's span and behind it its kept tokens, each from its own position. */
  ghost predicate SegmentStored(cfg: Config, keys: seq<KV>, at: nat, s: Segment, h: seq<KV>) {
    && at + 1 + |s.reps| <= |keys| && s.start < s.end <= |h| && |s.repAbs| == |s.reps| == cfg.RepsFor(s.end - s.start)
    && IsMean(cfg.dim, keys[at], h[s.start..s.end]) && Increasing(s.repAbs)
    && forall r | 0 <= r < |s.reps| :: s.start <= s.repAbs[r] < s.end && keys[at + 1 + r] == h[s.repAbs[r]]
  }

  /** The first `front` keys are the first tokens of the history, and the last `back` keys the last ones. */
  ghost predicate Ends(keys: seq<KV>, front: nat, back: nat, h: seq<KV>) {
    && front <= |h| && back <= |h| && front + back <= |keys|
    && keys[..front] == h[..front] && keys[|keys| - back..] == h[|h| - back..]
  }

  /** Between the two ends of the history stand all segments, in order, and nothing else. */
  ghost predicate LaidOut(cfg: Config, keys: seq<KV>, b: Bank, h: seq<KV>) {
    && |keys| == |b.win.sink| + Stored(b.segs, |b.segs|) + |b.win.pend| + |b.win.ring|
    && Ends(keys, |b.win.sink|, |b.win.pend| + |b.win.ring|, h)
    && forall i | 0 <= i < |b.segs| :: SegmentStored(cfg, keys, |b.win.sink| + Stored(b.segs, i), b.segs[i], h)
  }

  lemma {:induction false} SlotsLength(segs: seq<Segment>)
    ensures |Slots(segs)| == Stored(segs, |segs|)
  {
    if segs == [] {
    } else {
      SlotsLength(segs[..|segs| - 1]);
      StoredPrefix(segs, |segs| - 1, |segs| - 1);
    }
  }

  lemma {:induction false} StoredPrefix(segs: seq<Segment>, n: nat, i: nat)
    requires i <= n <= |segs|
    ensures Stored(segs[..n], i) == Stored(segs, i)
  {
    if i == 0 {
    } else {
      StoredPrefix(segs, n, i - 1);
    }
  }

  lemma {:induction false} SlotsPrefix(segs: seq<Segment>, n: nat)
    requires n <= |segs|
    ensures Slots(segs[..n]) <= Slots(segs)
  {
    if n == |segs| {
      assert segs[..n] == segs;
    } else {
      SlotsPrefix(segs[..|segs| - 1], n);
      assert segs[..|segs| - 1][..n] == segs[..n];
    }
  }

  /** Where segment `i` is stored. */
  lemma SlotsAt(segs: seq<Segment>, i: nat)
    requires i < |segs|
    ensures var at, reps := Stored(segs, i), segs[i].reps;
            && at + 1 + |reps| <= |Slots(segs)| && Slots(segs)[at] == segs[i].mean
            && Slots(segs)[at + 1..at + 1 + |reps|] == reps
  {
    hide Slots, Stored;
    SlotsNext(segs, i);
    SlotsPrefix(segs, i + 1);
    PieceAt(Slots(segs), Slots(segs[..i]), segs[i].mean, segs[i].reps);
  }

  lemma SlotsNext(segs: seq<Segment>, i: nat)
    requires i < |segs|
    ensures Slots(segs[..i + 1]) == Slots(segs[..i]) + ([segs[i].mean] + segs[i].reps)
    ensures |Slots(segs[..i])| == Stored(segs, i)
  {
    assert segs[..i + 1][..i] == segs[..i];
    SlotsLength(segs[..i]);
    StoredPrefix(segs, i, i);
  }

  lemma PieceAt(whole: seq<KV>, before: seq<KV>, m: KV, more: seq<KV>)
    requires before + ([m] + more) <= whole
    ensures |before| + 1 + |more| <= |whole| && whole[|before|] == m
    ensures whole[|before| + 1..|before| + 1 + |more|] == more
  {
    var part := before + ([m] + more);
    assert part[|before|] == m && part[|before| + 1..] == more;
  }

  /** On every reachable state the materialised keys are laid out so; before the first fold they are the history. */
  lemma Layout(cfg: Config, b: Bank, h: seq<KV>)
    requires cfg.Ok() && Sound(cfg, b, h)
    ensures LaidOut(cfg, Materialized(b), b, h)
    ensures b.folded == 0 ==> Materialized(b) == h
  {
    hide SegmentOk, Slots, Ends, SegmentStored, Stored, Holds, Tiles;
    SlotsLength(b.segs);
    EndsStored(cfg, b, h);
    forall i | 0 <= i < |b.segs|
      ensures SegmentStored(cfg, Materialized(b), |b.win.sink| + Stored(b.segs, i), b.segs[i], h)
    {
      SegmentAt(cfg, b, h, i);
    }
    if b.folded == 0 {
      NothingFolded(cfg, b, h);
    }
  }

  lemma {:induction false} SegmentsAdvance(segs: seq<Segment>, from: nat, to: nat, i: nat)
    requires Tiles(segs, from, to) && i < |segs| && forall j | 0 <= j < |segs| :: segs[j].start < segs[j].end
    ensures segs[i].end > from
  {
    if i == 0 {
    } else {
      SegmentsAdvance(segs, from, to, i - 1);
    }
  }

  lemma NothingFolded(cfg: Config, b: Bank, h: seq<KV>)
    requires Sound(cfg, b, h) && b.folded == 0
    ensures Materialized(b) == h
  {
    if b.segs != [] {
      SegmentsAdvance(b.segs, cfg.sink, cfg.sink, |b.segs| - 1);
    }
    assert b.segs == [];
    hide SegmentOk, Tiles;
    var n := |h|;
    assert h == h[..|b.win.sink|] + h[|b.win.sink|..n - |b.win.ring|] + h[n - |b.win.ring|..];
  }

  lemma SegmentAt(cfg: Config, b: Bank, h: seq<KV>, i: nat)
    requires i < |b.segs| && SegmentOk(cfg, b.segs[i], h)
    ensures SegmentStored(cfg, Materialized(b), |b.win.sink| + Stored(b.segs, i), b.segs[i], h)
  {
    hide Slots, IsMean, Increasing;
    var s, at, slots := b.segs[i], Stored(b.segs, i), Slots(b.segs);
    SlotsAt(b.segs, i);
    assert forall k | 0 <= k < |slots| :: Materialized(b)[|b.win.sink| + k] == slots[k];
    forall r | 0 <= r < |s.reps| ensures Materialized(b)[|b.win.sink| + at + 1 + r] == h[s.repAbs[r]] {
      assert slots[at + 1..at + 1 + |s.reps|][r] == slots[at + 1 + r];
    }
  }

  lemma EndsStored(cfg: Config, b: Bank, h: seq<KV>)
    requires Sound(cfg, b, h)
    ensures Ends(Materialized(b), |b.win.sink|, |b.win.pend| + |b.win.ring|, h)
  {
    hide SegmentOk, Tiles, Slots;
    var keys, back := Materialized(b), b.win.pend + b.win.ring;
    assert keys == b.win.sink + Slots(b.segs) + back;
    assert keys[|keys| - |back|..] == back;
  }

  // ---- replaying the log --------------------------------------------------

  ghost predicate SegmentsAgree(s: Segment, t: Segment) {
    && s.start == t.start && s.end == t.end && s.count == t.count
    && s.repAbs == t.repAbs && |s.reps| == |t.reps|
  }

  /** Equal structure: everything but the key and value contents. */
  ghost predicate Agree(a: Bank, b: Bank) {
    && |a.win.sink| == |b.win.sink| && |a.win.pend| == |b.win.pend| && |a.win.ring| == |b.win.ring|
    && a.folded == b.folded && a.seen == b.seen && a.cursor == b.cursor
    && |a.segs| == |b.segs|
    && forall i | 0 <= i < |a.segs| :: SegmentsAgree(a.segs[i], b.segs[i])
  }

  lemma AgreeSelf(a: Bank)
    ensures Agree(a, a)
  {
  }

  lemma FoldStepAgrees(c1: Config, a: Bank, c2: Config, b: Bank, log: seq<Op>)
    requires c1.Ok() && c2.Ok() && c1.SameLimits(c2) && Agree(a, b)
    requires |a.win.pend| >= c1.seg && FoldStep(c1, a, log).Done?
    ensures FoldStep(c2, b, log).Done? && Agree(FoldStep(c1, a, log).value, FoldStep(c2, b, log).value)
  {
  }

  lemma {:induction false} FoldsAgree(c1: Config, a: Bank, c2: Config, b: Bank, log: seq<Op>, n: nat)
    requires c1.Ok() && c2.Ok() && c1.SameLimits(c2) && Agree(a, b) && AfterFolds(c1, a, log, n).Done?
    ensures AfterFolds(c2, b, log, n).Done?
    ensures Agree(AfterFolds(c1, a, log, n).value, AfterFolds(c2, b, log, n).value)
  {
    if n == 0 {
    } else {
      FoldsAgree(c1, a, c2, b, log, n - 1);
      FoldStepAgrees(c1, AfterFolds(c1, a, log, n - 1).value, c2, AfterFolds(c2, b, log, n - 1).value, log);
    }
  }

  lemma MergeStepAgrees(c1: Config, a: Bank, c2: Config, b: Bank, log: seq<Op>)
    requires c1.SameLimits(c2) && Agree(a, b) && MergeStep(c1, a, log).Done?
    ensures MergeStep(c2, b, log).Done? && Agree(MergeStep(c1, a, log).value, MergeStep(c2, b, log).value)
  {
    var pair, keep := log[a.cursor].pair, log[a.cursor].keep;
    assert SegmentsAgree(a.segs[pair], b.segs[pair]) && SegmentsAgree(a.segs[pair + 1], b.segs[pair + 1]);
    hide Increasing, Below;
    assert SegmentsAgree(Joined(c1, a.segs, pair, keep), Joined(c2, b.segs, pair, keep));
    assert forall i | pair + 2 <= i < |a.segs| :: SegmentsAgree(a.segs[i], b.segs[i]);
  }

  lemma {:induction false} MergesAgree(c1: Config, a: Bank, c2: Config, b: Bank, log: seq<Op>, n: nat)
    requires c1.SameLimits(c2) && Agree(a, b) && AfterMerges(c1, a, log, n).Done?
    ensures AfterMerges(c2, b, log, n).Done?
    ensures Agree(AfterMerges(c1, a, log, n).value, AfterMerges(c2, b, log, n).value)
  {
    hide Agree, MergeStep;
    if n == 0 {
    } else {
      MergesAgree(c1, a, c2, b, log, n - 1);
      MergeStepAgrees(c1, AfterMerges(c1, a, log, n - 1).value, c2, AfterMerges(c2, b, log, n - 1).value, log);
    }
  }

  /**
   * A layer that starts with the leader's structure and replays the leader's log never faults and
   * ends with the leader's structure, although its keys and values are its own.
   */
  lemma ReplayAgrees(c1: Config, a: Bank, x: seq<KV>, c2: Config, b: Bank, y: seq<KV>, log: seq<Op>)
    requires c1.Ok() && c2.Ok() && c1.SameLimits(c2)
    requires |a.win.sink| <= c1.sink && |b.win.sink| <= c2.sink
    requires Agree(a, b) && |x| == |y| && Step(c1, a, x, log).Done?
    ensures Step(c2, b, y, log).Done?
    ensures Agree(Step(c1, a, x, log).value, Step(c2, b, y, log).value)
  {
    hide Agree, Admitted, AfterFolds, AfterMerges, Fills;
    var p, q := Admitted(c1, a, x), Admitted(c2, b, y);
    AdmittedAgree(c1, a, x, c2, b, y);
    var n := Fills(|p.win.pend|, c1.seg);
    FoldsAgree(c1, p, c2, q, log, n);
    var f := AfterFolds(c1, p, log, n).value;
    SameShape(p, q, f, AfterFolds(c2, q, log, n).value);
    MergesAgree(c1, f, c2, AfterFolds(c2, q, log, n).value, log, Max(0, |f.segs| - c1.kStates));
  }

  lemma AdmittedAgree(c1: Config, a: Bank, x: seq<KV>, c2: Config, b: Bank, y: seq<KV>)
    requires c1.SameLimits(c2) && |a.win.sink| <= c1.sink && |b.win.sink| <= c2.sink && Agree(a, b) && |x| == |y|
    ensures Agree(Admitted(c1, a, x), Admitted(c2, b, y))
  {
  }

  lemma SameShape(p: Bank, q: Bank, f: Bank, g: Bank)
    requires Agree(p, q) && Agree(f, g)
    ensures |p.win.pend| == |q.win.pend| && |f.segs| == |g.segs|
  {
  }

  lemma {:induction false} FoldsPrefix(cfg: Config, b: Bank, log: seq<Op>, longer: seq<Op>, n: nat)
    requires cfg.Ok() && log <= longer && AfterFolds(cfg, b, log, n).Done?
    ensures AfterFolds(cfg, b, longer, n) == AfterFolds(cfg, b, log, n)
  {
    if n == 0 {
    } else {
      FoldsPrefix(cfg, b, log, longer, n - 1);
    }
  }

  lemma {:induction false} MergesPrefix(cfg: Config, b: Bank, log: seq<Op>, longer: seq<Op>, n: nat)
    requires log <= longer && AfterMerges(cfg, b, log, n).Done?
    ensures AfterMerges(cfg, b, longer, n) == AfterMerges(cfg, b, log, n)
  {
    if n == 0 {
    } else {
      MergesPrefix(cfg, b, log, longer, n - 1);
    }
  }

  /** A fault in one fold is the fault of the whole update. */
  lemma {:induction false} FoldsStuck(cfg: Config, b: Bank, log: seq<Op>, n: nat, total: nat)
    requires cfg.Ok() && n <= total && AfterFolds(cfg, b, log, n).Raised?
    ensures AfterFolds(cfg, b, log, total).Raised?
  {
    if n < total {
      FoldsStuck(cfg, b, log, n, total - 1);
    }
  }

  lemma {:induction false} MergesStuck(cfg: Config, b: Bank, log: seq<Op>, n: nat, total: nat)
    requires n <= total && AfterMerges(cfg, b, log, n).Raised?
    ensures AfterMerges(cfg, b, log, total).Raised?
  {
    if n < total {
      MergesStuck(cfg, b, log, n, total - 1);
    }
  }

  // ---- single steps, for the loops of the layer ---------------------------

  lemma FoldsNext(cfg: Config, b: Bank, log: seq<Op>, longer: seq<Op>, n: nat, prev: Bank)
    requires cfg.Ok() && log <= longer && AfterFolds(cfg, b, log, n) == Done(prev) && |prev.win.pend| >= cfg.seg
    ensures AfterFolds(cfg, b, longer, n) == Done(prev)
    ensures AfterFolds(cfg, b, longer, n + 1) == FoldStep(cfg, prev, longer)
  {
    FoldsPrefix(cfg, b, log, longer, n);
  }

  lemma MergesNext(cfg: Config, b: Bank, log: seq<Op>, longer: seq<Op>, n: nat, prev: Bank)
    requires log <= longer && AfterMerges(cfg, b, log, n) == Done(prev)
    ensures AfterMerges(cfg, b, longer, n + 1) == MergeStep(cfg, prev, longer)
  {
    MergesPrefix(cfg, b, log, longer, n);
  }

  lemma FoldStepCounts(cfg: Config, b: Bank, h: seq<KV>, log: seq<Op>)
    requires cfg.Ok() && Sound(cfg, b, h) && |b.win.pend| >= cfg.seg && FoldStep(cfg, b, log).Done?
    ensures var r := FoldStep(cfg, b, log).value;
            Sound(cfg, r, h) && |r.win.pend| == |b.win.pend| - cfg.seg
  {
    FoldOneSound(cfg, b, h, if cfg.reps <= 1 then [] else log[b.cursor].kept);
  }

  lemma SoundPools(cfg: Config, b: Bank, h: seq<KV>)
    requires Sound(cfg, b, h)
    ensures forall i | 0 <= i < |b.segs| :: b.segs[i].count > 0 && |b.segs[i].reps| == |b.segs[i].repAbs|
    ensures cfg.reps <= 1 ==> forall i | 0 <= i < |b.segs| :: b.segs[i].reps == []
    ensures |b.win.sink| <= cfg.sink
  {
    assert forall i | 0 <= i < |b.segs| :: SegmentOk(cfg, b.segs[i], h);
  }

  lemma SinkFits(cfg: Config, b: Bank, h: seq<KV>)
    requires Sound(cfg, b, h)
    ensures |b.win.sink| <= cfg.sink
  {
  }
}
