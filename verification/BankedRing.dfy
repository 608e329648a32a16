/** BankedRingLayer: the leader decides which tokens and segments to keep, followers replay it. */
module BankedRing {
  import opened Lists
  import opened Tokens
  import opened Eviction
  import opened OpLog
  import opened TopK
  import opened BankSpec

  /** The first index of a largest entry, as `max(range, key=...)` picks it. */
  method ArgMax(xs: seq<real>) returns (best: nat)
    requires xs != []
    ensures best < |xs|
    ensures forall i | 0 <= i < |xs| :: xs[i] <= xs[best]
    ensures forall i | 0 <= i < best :: xs[i] < xs[best]
  {
    best := 0;
    var i := 1;
    while i < |xs|
      invariant 1 <= i <= |xs| && best < i
      invariant forall j | 0 <= j < i :: xs[j] <= xs[best]
      invariant forall j | 0 <= j < best :: xs[j] < xs[best]
    {
      if xs[best] < xs[i] {
        best := i;
      }
      i := i + 1;
    }
  }

  /** How far each key is from the mean key: one minus the cosine. */
  function Novelty(cfg: Config, ts: seq<KV>, mean: Vec): (r: seq<real>)
    ensures |r| == |ts| && forall i | 0 <= i < |ts| :: r[i] == 1.0 - cfg.cos(ts[i].key, mean)
  {
    seq(|ts|, i requires 0 <= i < |ts| => 1.0 - cfg.cos(ts[i].key, mean))
  }

  /** `kept` lists, in order, the `n` tokens whose keys are least similar to the mean key, or all of them. */
  ghost predicate LeastSimilar(cfg: Config, ts: seq<KV>, mean: Vec, kept: seq<nat>, n: nat) {
    && Increasing(kept) && Below(kept, |ts|) && |kept| == Min(n, |ts|)
    && forall i, j | 0 <= i < |kept| && 0 <= j < |ts| && j !in kept ::
         cfg.cos(ts[kept[i]].key, mean) <= cfg.cos(ts[j].key, mean)
  }

  lemma MostNovelIsLeastSimilar(cfg: Config, ts: seq<KV>, mean: Vec, kept: seq<nat>, n: nat)
    requires IsTopK(Novelty(cfg, ts, mean), kept, n)
    ensures LeastSimilar(cfg, ts, mean, kept, n)
  {
    var nov := Novelty(cfg, ts, mean);
    hide Increasing, Novelty;
    forall i, j | 0 <= i < |kept| && 0 <= j < |ts| && j !in kept
      ensures cfg.cos(ts[kept[i]].key, mean) <= cfg.cos(ts[j].key, mean)
    {
      assert nov[j] <= nov[kept[i]];
    }
  }

  /** Which tokens of a segment-to-be the leader keeps: the most novel ones. */
  method ChooseRepresentatives(cfg: Config, cut: seq<KV>) returns (kept: seq<nat>)
    requires cfg.Ok() && |cut| == cfg.seg && cfg.reps > 1
    ensures FoldFits(cfg, kept)
    ensures LeastSimilar(cfg, cut, MeanOf(cfg.dim, cut).key, kept, cfg.reps - 1)
  {
    var mean := MeanOf(cfg.dim, cut).key;
    kept := TopKIndices(Novelty(cfg, cut, mean), cfg.reps - 1);
    MostNovelIsLeastSimilar(cfg, cut, mean, kept, cfg.reps - 1);
  }

  /** The first most similar adjacent pair, and the most novel tokens of its pool. */
  method ChooseMerge(cfg: Config, segs: seq<Segment>) returns (pair: nat, keep: seq<nat>)
    requires |segs| >= 2
    requires forall i | 0 <= i < |segs| :: segs[i].count > 0 && |segs[i].reps| == |segs[i].repAbs|
    requires cfg.reps <= 1 ==> forall i | 0 <= i < |segs| :: segs[i].reps == []
    ensures MergeFits(cfg, segs, pair, keep)
    ensures forall j | 0 <= j < |segs| - 1 ::
      var sim, best := cfg.cos(segs[j].mean.key, segs[j + 1].mean.key),
        cfg.cos(segs[pair].mean.key, segs[pair + 1].mean.key);
      sim <= best && (j < pair ==> sim < best)
    ensures cfg.reps > 1 ==>
      var a, b := segs[pair], segs[pair + 1];
      LeastSimilar(cfg, a.reps + b.reps, MergeMeans(cfg.dim, a.mean, a.count, b.mean, b.count).key, keep, cfg.reps - 1)
  {
    var sims: seq<real> := [];
    var j := 0;
    while j < |segs| - 1
      invariant 0 <= j <= |segs| - 1 && |sims| == j
      invariant forall i | 0 <= i < j :: sims[i] == cfg.cos(segs[i].mean.key, segs[i + 1].mean.key)
    {
      sims := sims + [cfg.cos(segs[j].mean.key, segs[j + 1].mean.key)];
      j := j + 1;
    }
    pair := ArgMax(sims);
    keep := [];
    var a, b := segs[pair], segs[pair + 1];
    if cfg.reps > 1 {
      var mean := MergeMeans(cfg.dim, a.mean, a.count, b.mean, b.count);
      keep := TopKIndices(Novelty(cfg, a.reps + b.reps, mean.key), cfg.reps - 1);
      MostNovelIsLeastSimilar(cfg, a.reps + b.reps, mean.key, keep, cfg.reps - 1);
    }
  }

  /** What a deciding layer logs for a fold: the most novel tokens, if it keeps any. */
  ghost predicate FoldChosen(cfg: Config, cut: seq<KV>, logged: seq<Op>) {
    if cfg.reps <= 1 then logged == []
    else |logged| == 1 && logged[0].Fold? && |cut| > 0
         && LeastSimilar(cfg, cut, MeanOf(cfg.dim, cut).key, logged[0].kept, cfg.reps - 1)
  }

  /** What it logs for a merge: the first most similar adjacent pair, and the most novel tokens of its pool. */
  ghost predicate MergeChosen(cfg: Config, segs: seq<Segment>, logged: seq<Op>) {
    && |logged| == 1 && logged[0].Merge? && MergeFits(cfg, segs, logged[0].pair, logged[0].keep)
    && (forall j | 0 <= j < |segs| - 1 ::
          var pair := logged[0].pair;
          var sim, best := cfg.cos(segs[j].mean.key, segs[j + 1].mean.key),
            cfg.cos(segs[pair].mean.key, segs[pair + 1].mean.key);
          sim <= best && (j < pair ==> sim < best))
    && (cfg.reps > 1 ==>
          var a, b := segs[logged[0].pair], segs[logged[0].pair + 1];
          LeastSimilar(cfg, a.reps + b.reps, MergeMeans(cfg.dim, a.mean, a.count, b.mean, b.count).key,
                       logged[0].keep, cfg.reps - 1))
  }

  ghost predicate FoldChosenAt(cfg: Config, o: Outcome<Bank>, log: seq<Op>) {
    && o.Done? && |o.value.win.pend| >= cfg.seg
    && var cursor := o.value.cursor;
       if cfg.reps <= 1 then FoldChosen(cfg, o.value.win.pend[..cfg.seg], [])
       else cursor < |log| && FoldChosen(cfg, o.value.win.pend[..cfg.seg], log[cursor..cursor + 1])
  }

  /** The `n` folds from `b` on log the most novel tokens of their segments, each of the bank it finds. */
  ghost predicate FoldsChosen(cfg: Config, b: Bank, log: seq<Op>, n: nat)
    requires cfg.Ok()
  {
    n > 0 ==> FoldsChosen(cfg, b, log, n - 1) && FoldChosenAt(cfg, AfterFolds(cfg, b, log, n - 1), log)
  }

  ghost predicate MergeChosenAt(cfg: Config, o: Outcome<Bank>, log: seq<Op>) {
    o.Done? && o.value.cursor < |log| && MergeChosen(cfg, o.value.segs, log[o.value.cursor..o.value.cursor + 1])
  }

  /** The `n` merges from `b` on log a most similar pair of the segments they find. */
  ghost predicate MergesChosen(cfg: Config, b: Bank, log: seq<Op>, n: nat) {
    n > 0 ==> MergesChosen(cfg, b, log, n - 1) && MergeChosenAt(cfg, AfterMerges(cfg, b, log, n - 1), log)
  }

  lemma {:induction false} FoldsChosenGrow(cfg: Config, b: Bank, log: seq<Op>, longer: seq<Op>, n: nat)
    requires cfg.Ok() && log <= longer && FoldsChosen(cfg, b, log, n)
    ensures FoldsChosen(cfg, b, longer, n)
  {
    hide FoldChosen, AfterFolds;
    if n == 0 {
    } else {
      FoldsChosenGrow(cfg, b, log, longer, n - 1);
      FoldsPrefix(cfg, b, log, longer, n - 1);
      var cursor := AfterFolds(cfg, b, log, n - 1).value.cursor;
      assert cursor < |log| ==> log[cursor..cursor + 1] == longer[cursor..cursor + 1];
    }
  }

  lemma {:induction false} MergesChosenGrow(cfg: Config, b: Bank, log: seq<Op>, longer: seq<Op>, n: nat)
    requires log <= longer && MergesChosen(cfg, b, log, n)
    ensures MergesChosen(cfg, b, longer, n)
  {
    hide MergeChosen, AfterMerges;
    if n == 0 {
    } else {
      MergesChosenGrow(cfg, b, log, longer, n - 1);
      MergesPrefix(cfg, b, log, longer, n - 1);
      var cursor := AfterMerges(cfg, b, log, n - 1).value.cursor;
      assert log[cursor..cursor + 1] == longer[cursor..cursor + 1];
    }
  }

  lemma FoldChosenNext(cfg: Config, b: Bank, log: seq<Op>, longer: seq<Op>, n: nat, prev: Bank)
    requires cfg.Ok() && log <= longer && FoldsChosen(cfg, b, log, n) && AfterFolds(cfg, b, log, n) == Done(prev)
    requires prev.cursor == |log| && |prev.win.pend| >= cfg.seg
    requires FoldChosen(cfg, prev.win.pend[..cfg.seg], longer[|log|..])
    ensures FoldsChosen(cfg, b, longer, n + 1)
  {
    hide AfterFolds;
    FoldsChosenGrow(cfg, b, log, longer, n);
    FoldsPrefix(cfg, b, log, longer, n);
  }

  lemma MergeChosenNext(cfg: Config, b: Bank, log: seq<Op>, longer: seq<Op>, n: nat, prev: Bank)
    requires log <= longer && MergesChosen(cfg, b, log, n) && AfterMerges(cfg, b, log, n) == Done(prev)
    requires prev.cursor == |log| && MergeChosen(cfg, prev.segs, longer[|log|..])
    ensures MergesChosen(cfg, b, longer, n + 1)
  {
    hide AfterMerges;
    MergesChosenGrow(cfg, b, log, longer, n);
    MergesPrefix(cfg, b, log, longer, n);
    assert |longer| == |log| + 1;
  }

  /** What a deciding layer adds to the log in one update: the choices of its folds, then of its merges. */
  ghost predicate Led(cfg: Config, a: Bank, log: seq<Op>)
    requires cfg.Ok()
  {
    var n := Fills(|a.win.pend|, cfg.seg);
    var f := AfterFolds(cfg, a, log, n);
    FoldsChosen(cfg, a, log, n) && f.Done? && MergesChosen(cfg, f.value, log, Max(0, |f.value.segs| - cfg.kStates))
  }

  /**
   * Folds the oldest pending segment. A deciding layer appends its choice to the log, a follower
   * reads it at its cursor; both then do what `FoldStep` does with the resulting log.
   */
  method FoldSegment(cfg: Config, b: Bank, log: seq<Op>, decides: bool) returns (r: Outcome<Bank>, log': seq<Op>)
    requires cfg.Ok() && |b.win.pend| >= cfg.seg && (decides ==> b.cursor == |log|)
    ensures log <= log' && r == FoldStep(cfg, b, log')
    ensures if decides then r.Done? && r.value.cursor == |log'| else log' == log
    ensures decides ==> FoldChosen(cfg, b.win.pend[..cfg.seg], log'[|log|..])
  {
    var cut := b.win.pend[..cfg.seg];
    var kept: seq<nat> := [];
    var cursor := b.cursor;
    log' := log;
    if cfg.reps > 1 {
      if decides {
        kept := ChooseRepresentatives(cfg, cut);
        log' := log + [Fold(kept)];
      } else if cursor >= |log| {
        return Raised(LogExhausted), log;
      } else if !log[cursor].Fold? {
        return Raised(Desync), log;
      } else if !FoldFits(cfg, log[cursor].kept) {
        return Raised(Misfit), log;
      } else {
        kept := log[cursor].kept;
      }
      cursor := cursor + 1;
    }
    var start := cfg.sink + b.folded;
    var s := Segment(start, start + cfg.seg, cfg.seg, MeanOf(cfg.dim, cut), Select(cut, kept), Shift(kept, start));
    var win := b.win.(pend := b.win.pend[cfg.seg..]);
    r := Done(b.(win := win, folded := b.folded + cfg.seg, segs := b.segs + [s], cursor := cursor));
  }

  method MergeOnce(cfg: Config, b: Bank, log: seq<Op>, decides: bool) returns (r: Outcome<Bank>, log': seq<Op>)
    requires |b.segs| >= 2 && (decides ==> b.cursor == |log|)
    requires forall i | 0 <= i < |b.segs| :: b.segs[i].count > 0 && |b.segs[i].reps| == |b.segs[i].repAbs|
    requires cfg.reps <= 1 ==> forall i | 0 <= i < |b.segs| :: b.segs[i].reps == []
    ensures log <= log' && r == MergeStep(cfg, b, log')
    ensures if decides then r.Done? && r.value.cursor == |log'| else log' == log
    ensures decides ==> MergeChosen(cfg, b.segs, log'[|log|..])
  {
    log' := log;
    var pair, keep := 0, [];
    if decides {
      pair, keep := ChooseMerge(cfg, b.segs);
      log' := log + [Merge(pair, keep)];
    } else if b.cursor >= |log| {
      return Raised(LogExhausted), log;
    } else if !log[b.cursor].Merge? {
      return Raised(Desync), log;
    } else if !MergeFits(cfg, b.segs, log[b.cursor].pair, log[b.cursor].keep) {
      return Raised(Misfit), log;
    } else {
      pair, keep := log[b.cursor].pair, log[b.cursor].keep;
    }
    var x, y := b.segs[pair], b.segs[pair + 1];
    var joined := Segment(x.start, y.end, x.count + y.count, MergeMeans(cfg.dim, x.mean, x.count, y.mean, y.count),
                          Select(x.reps + y.reps, keep), Select(x.repAbs + y.repAbs, keep));
    r := Done(b.(segs := b.segs[..pair] + [joined] + b.segs[pair + 2..], cursor := b.cursor + 1));
  }

  /** Folds every full segment out of the pending tokens. */
  method FoldAll(cfg: Config, start: Bank, ghost h: seq<KV>, log: seq<Op>, decides: bool)
    returns (r: Outcome<Bank>, log': seq<Op>)
    requires cfg.Ok() && Sound(cfg, start, h) && (decides ==> start.cursor == |log|)
    ensures log <= log' && (if decides then r.Done? && r.value.cursor == |log'| else log' == log)
    ensures r.Done? ==> AfterFolds(cfg, start, log', Fills(|start.win.pend|, cfg.seg)) == r && Sound(cfg, r.value, h)
    ensures r.Raised? ==> AfterFolds(cfg, start, log', Fills(|start.win.pend|, cfg.seg)).Raised?
    ensures decides ==> FoldsChosen(cfg, start, log', Fills(|start.win.pend|, cfg.seg))
  {
    hide Sound, AfterFolds, FoldStep, FoldsChosen, FoldChosen, Fills, AfterMerges;
    var b := start;
    log' := log;
    ghost var n := 0;
    NothingFoldedYet(cfg, start, log);
    while |b.win.pend| >= cfg.seg
      invariant log <= log' && (if decides then b.cursor == |log'| else log' == log)
      invariant Sound(cfg, b, h) && AfterFolds(cfg, start, log', n) == Done(b)
      invariant Fills(|start.win.pend|, cfg.seg) == n + Fills(|b.win.pend|, cfg.seg)
      invariant decides ==> FoldsChosen(cfg, start, log', n)
      decreases |b.win.pend|
    {
      ghost var before := log';
      r, log' := FoldSegment(cfg, b, log', decides);
      FoldTaken(cfg, start, h, before, log', n, b, decides);
      n := n + 1;
      if r.Raised? {
        FoldsStuck(cfg, start, log', n, Fills(|start.win.pend|, cfg.seg));
        return;
      }
      b := r.value;
    }
    FillsStep(|b.win.pend|, cfg.seg);
    r := Done(b);
  }

  lemma NothingFoldedYet(cfg: Config, start: Bank, log: seq<Op>)
    requires cfg.Ok()
    ensures AfterFolds(cfg, start, log, 0) == Done(start) && FoldsChosen(cfg, start, log, 0)
  {
  }

  /** One more fold of the loop, whatever it did. */
  lemma FoldTaken(cfg: Config, start: Bank, h: seq<KV>, log: seq<Op>, log': seq<Op>, n: nat, b: Bank, decides: bool)
    requires cfg.Ok() && Sound(cfg, b, h) && log <= log' && AfterFolds(cfg, start, log, n) == Done(b)
      && |b.win.pend| >= cfg.seg
    requires decides ==>
      b.cursor == |log| && FoldsChosen(cfg, start, log, n) && FoldChosen(cfg, b.win.pend[..cfg.seg], log'[|log|..])
    ensures AfterFolds(cfg, start, log', n + 1) == FoldStep(cfg, b, log')
    ensures decides ==> FoldsChosen(cfg, start, log', n + 1)
    ensures Fills(|b.win.pend|, cfg.seg) == 1 + Fills(|b.win.pend| - cfg.seg, cfg.seg)
    ensures var r := FoldStep(cfg, b, log');
            r.Done? ==> Sound(cfg, r.value, h) && |r.value.win.pend| == |b.win.pend| - cfg.seg
  {
    hide Sound, AfterFolds, FoldStep, FoldsChosen, FoldChosen;
    FoldsNext(cfg, start, log, log', n, b);
    if decides {
      FoldChosenNext(cfg, start, log, log', n, b);
    }
    if FoldStep(cfg, b, log').Done? {
      FoldStepCounts(cfg, b, h, log');
    }
  }

  lemma FillsStep(n: nat, seg: nat)
    requires seg >= 1
    ensures if n < seg then Fills(n, seg) == 0 else Fills(n, seg) == 1 + Fills(n - seg, seg)
  {
  }

  /** Merges adjacent segments until at most `k_states` are left. */
  method MergeAll(cfg: Config, start: Bank, ghost h: seq<KV>, log: seq<Op>, decides: bool)
    returns (r: Outcome<Bank>, log': seq<Op>)
    requires cfg.Ok() && Sound(cfg, start, h) && (decides ==> start.cursor == |log|)
    ensures log <= log' && (if decides then r.Done? && r.value.cursor == |log'| else log' == log)
    ensures r.Done? ==> AfterMerges(cfg, start, log', Max(0, |start.segs| - cfg.kStates)) == r
    ensures r.Raised? ==> AfterMerges(cfg, start, log', Max(0, |start.segs| - cfg.kStates)).Raised?
    ensures decides ==> MergesChosen(cfg, start, log', Max(0, |start.segs| - cfg.kStates))
  {
    var b := start;
    log' := log;
    ghost var n := 0;
    assert AfterMerges(cfg, start, log', n) == Done(b);
    assert MergesChosen(cfg, start, log', n);
    hide Sound, AfterMerges, MergeStep, MergesChosen, MergeChosen;
    while |b.segs| > cfg.kStates
      invariant log <= log' && (if decides then b.cursor == |log'| else log' == log)
      invariant Sound(cfg, b, h) && AfterMerges(cfg, start, log', n) == Done(b)
      invariant |b.segs| == |start.segs| - n && (n > 0 ==> |b.segs| >= cfg.kStates)
      invariant decides ==> MergesChosen(cfg, start, log', n)
      decreases |b.segs|
    {
      ghost var before := log';
      SoundPools(cfg, b, h);
      r, log' := MergeOnce(cfg, b, log', decides);
      MergesNext(cfg, start, before, log', n, b);
      if decides {
        MergeChosenNext(cfg, start, before, log', n, b);
      }
      n := n + 1;
      if r.Raised? {
        MergesStuck(cfg, start, log', n, Max(0, |start.segs| - cfg.kStates));
        return;
      }
      MergeSound(cfg, b, h, log');
      b := r.value;
    }
    r := Done(b);
  }

  /** sink, then every segment's mean and kept tokens, then pending and ring. */
  method Materialize(b: Bank) returns (keys: seq<KV>)
    ensures keys == Materialized(b)
  {
    var parts := b.win.sink;
    var i := 0;
    while i < |b.segs|
      invariant 0 <= i <= |b.segs|
      invariant parts == b.win.sink + Slots(b.segs[..i])
    {
      assert b.segs[..i + 1][..i] == b.segs[..i];
      parts := parts + ([b.segs[i].mean] + b.segs[i].reps);
      i := i + 1;
    }
    assert b.segs[..i] == b.segs;
    keys := parts + b.win.pend + b.win.ring;
  }

  /** Every full segment is folded first, then the surplus segments are merged. */
  method FoldMerge(cfg: Config, a: Bank, ghost h: seq<KV>, log: seq<Op>, decides: bool)
    returns (r: Outcome<Bank>, log': seq<Op>)
    requires cfg.Ok() && Sound(cfg, a, h) && (decides ==> a.cursor == |log|)
    ensures log <= log' && (if decides then r.Done? && r.value.cursor == |log'| else log' == log)
    ensures if r.Done? then r == Settle(cfg, a, log') else Settle(cfg, a, log').Raised?
    ensures decides ==> Led(cfg, a, log')
  {
    hide Sound, AfterFolds, AfterMerges, Fills, FoldsChosen, MergesChosen;
    var f, foldLog := FoldAll(cfg, a, h, log, decides);
    if f.Raised? {
      return f, foldLog;
    }
    r, log' := MergeAll(cfg, f.value, h, foldLog, decides);
    FoldsPrefix(cfg, a, foldLog, log', Fills(|a.win.pend|, cfg.seg));
    if decides {
      FoldsChosenGrow(cfg, a, foldLog, log', Fills(|a.win.pend|, cfg.seg));
    }
  }

  /** Bookkeeping of one update: admit the chunk, fold, merge. */
  method Digest(cfg: Config, b: Bank, ghost h: seq<KV>, chunk: seq<KV>, log: seq<Op>, decides: bool)
    returns (r: Outcome<Bank>, log': seq<Op>)
    requires cfg.Ok() && Sound(cfg, b, h) && (decides ==> b.cursor == |log|)
    ensures |b.win.sink| <= cfg.sink && log <= log'
    ensures if decides then r.Done? && r.value.cursor == |log'| else log' == log
    ensures r.Done? ==> r == Step(cfg, b, chunk, log')
    ensures r.Raised? ==> Step(cfg, b, chunk, log').Raised?
    ensures decides ==> Led(cfg, Admitted(cfg, b, chunk), log')
  {
    SinkFits(cfg, b, h);
    hide Sound, Admit, Settle, Led;
    var win := AdmitTokens(cfg.sink, cfg.window, b.win, chunk);
    var a := b.(win := win, seen := b.seen + |chunk|);
    AdmittedSound(cfg, b, h, chunk);
    r, log' := FoldMerge(cfg, a, h + chunk, log, decides);
  }

  class BankedRingLayer {
    const cfg: Config
    const coord: Coord?
    const isLeader: bool
    var sinkTokens: seq<KV>
    var pendTokens: seq<KV>
    var ringTokens: seq<KV>
    var segs: seq<Segment>
    var folded: nat
    var cumulativeLength: nat
    var opCursor: nat
    var keys: seq<KV>
    ghost var history: seq<KV>
    /** The decisions of a layer that decides for itself. */
    var ops: seq<Op>

    function State(): Bank
      reads this
    {
      Bank(Window(sinkTokens, pendTokens, ringTokens), folded, cumulativeLength, segs, opCursor)
    }

    predicate Decides() { coord == null || isLeader }

    /** The decisions this layer goes by: its own, or the shared ones. */
    function Log(): seq<Op>
      reads this, coord
    {
      if coord == null then ops else coord.log
    }

    /** Holds before and after every update: exact segments, and `keys` is what they materialise to. */
    ghost predicate Valid()
      reads this, coord
    {
      && cfg.Ok()
      && Sound(cfg, State(), history) && Settled(cfg, State())
      && keys == Materialized(State())
      && (Decides() ==> opCursor == |Log()|)
    }

    constructor (cfg: Config, coord: Coord?, isLeader: bool)
      requires cfg.Ok() && (coord != null ==> coord.log == [])
      ensures Valid() && history == [] && State() == Empty
      ensures this.cfg == cfg && this.coord == coord && this.isLeader == isLeader
    {
      this.cfg, this.coord, this.isLeader := cfg, coord, isLeader;
      sinkTokens, pendTokens, ringTokens, segs := [], [], [], [];
      folded, cumulativeLength, opCursor, keys := 0, 0, 0, [];
      history, ops := [], [];
    }

    method Store(b: Bank, newKeys: seq<KV>)
      modifies this`sinkTokens, this`pendTokens, this`ringTokens, this`segs, this`folded, this`cumulativeLength,
        this`opCursor, this`keys
      ensures State() == b && keys == newKeys
    {
      sinkTokens, pendTokens, ringTokens := b.win.sink, b.win.pend, b.win.ring;
      segs, folded, cumulativeLength, opCursor := b.segs, b.folded, b.seen, b.cursor;
      keys := newKeys;
    }

    /** Only a deciding layer writes: to the shared log if there is one, else to its own. */
    method Publish(log: seq<Op>)
      requires !Decides() ==> log == Log()
      modifies this`ops, coord
      ensures Log() == log
    {
      if coord == null {
        ops := log;
      } else if isLeader {
        coord.log := log;
      }
    }

    /**
     * One chunk. A deciding layer always succeeds; a follower succeeds exactly when the shared log
     * holds the decisions it needs; either way the new state is the one `Step` computes from that log.
     */
    method Update(chunk: seq<KV>) returns (r: Outcome<seq<KV>>)
      requires Valid()
      modifies this, coord
      ensures |old(State()).win.sink| <= cfg.sink
      ensures old(Log()) <= Log() && (if Decides() then r.Done? else Log() == old(Log()))
      ensures r.Done? <==> Step(cfg, old(State()), chunk, Log()).Done?
      ensures r.Done? ==> Step(cfg, old(State()), chunk, Log()) == Done(State())
      ensures r.Done? ==> Valid() && history == old(history) + chunk && r.value == old(keys) + chunk
      ensures Decides() ==> Led(cfg, Admitted(cfg, old(State()), chunk), Log())
    {
      hide Sound, Settled, Materialized, Step, Led, Admit;
      var returned := keys + chunk;
      ghost var before := State();
      var next, log := Digest(cfg, State(), history, chunk, Log(), Decides());
      Publish(log);
      if next.Raised? {
        return Raised(next.fault);
      }
      StepSound(cfg, before, history, chunk, log);
      var newKeys := Materialize(next.value);
      Store(next.value, newKeys);
      history := history + chunk;
      r := Done(returned);
    }
  }

  /**
   * What attention reads after any run: the first tokens of the history, each segment as the mean of its
   * span and its kept tokens, and the last tokens. The segments tile the folded tokens, so every one of
   * them is in exactly one stored mean; before the first fold the stored keys are the history.
   */
  lemma StoredKeys(layer: BankedRingLayer)
    requires layer.Valid()
    ensures LaidOut(layer.cfg, layer.keys, layer.State(), layer.history)
    ensures Tiles(layer.segs, layer.cfg.sink, layer.cfg.sink + layer.folded)
    ensures layer.folded == 0 ==> layer.keys == layer.history
  {
    hide LaidOut, Materialized, Settled;
    Layout(layer.cfg, layer.State(), layer.history);
  }

  // ---- one leader and its followers ---------------------------------------

  /** A cache: the leader first, every layer on the same log, all in the leader's structure. */
  ghost predicate Synced(layers: seq<BankedRingLayer>, coord: Coord)
    reads layers, coord, set i | 0 <= i < |layers| && layers[i].coord != null :: layers[i].coord
  {
    && layers != []
    && (forall i, j | 0 <= i < j < |layers| :: layers[i] != layers[j])
    && (forall i | 0 <= i < |layers| ::
          && layers[i].Valid() && layers[i].coord == coord && (layers[i].isLeader <==> i == 0)
          && layers[i].cfg.SameLimits(layers[0].cfg)
          && Agree(layers[0].State(), layers[i].State()))
    && layers[0].opCursor == |coord.log|
  }

  /** `build_cache`: fresh layers on one fresh log, the first of them the leader. */
  method BuildCache(cfgs: seq<Config>) returns (layers: seq<BankedRingLayer>, coord: Coord)
    requires cfgs != [] && forall i | 0 <= i < |cfgs| :: cfgs[i].Ok() && cfgs[i].SameLimits(cfgs[0])
    ensures fresh(coord) && fresh(layers) && Synced(layers, coord) && |layers| == |cfgs|
    ensures forall i | 0 <= i < |layers| :: layers[i].cfg == cfgs[i] && layers[i].history == []
  {
    hide Sound, Settled, Materialized, Agree;
    coord := new Coord();
    layers := [];
    while |layers| < |cfgs|
      invariant |layers| <= |cfgs| && fresh(coord) && coord.log == []
      invariant forall i | 0 <= i < |layers| ::
        && fresh(layers[i]) && layers[i].Valid() && layers[i].coord == coord && (layers[i].isLeader <==> i == 0)
        && layers[i].cfg == cfgs[i] && layers[i].history == [] && layers[i].State() == Empty
      invariant forall i, j | 0 <= i < j < |layers| :: layers[i] != layers[j]
    {
      var layer := new BankedRingLayer(cfgs[|layers|], coord, layers == []);
      layers := layers + [layer];
    }
    forall i | 0 <= i < |layers| ensures Agree(layers[0].State(), layers[i].State()) {
      AgreeSelf(Empty);
    }
  }

  /** A follower takes its chunk after the leader: it replays the leader's decisions and agrees again. */
  method Follow(layer: BankedRingLayer, coord: Coord, chunk: seq<KV>, ghost cfg: Config, ghost before: Bank,
                ghost lead: seq<KV>, ghost after: Bank)
    returns (out: seq<KV>)
    requires layer.Valid() && layer.coord == coord && !layer.isLeader && cfg.Ok() && cfg.SameLimits(layer.cfg)
    requires |before.win.sink| <= cfg.sink && Agree(before, layer.State()) && |lead| == |chunk|
    requires Step(cfg, before, lead, coord.log) == Done(after)
    modifies layer, coord
    ensures layer.Valid() && coord.log == old(coord.log) && Agree(after, layer.State())
    ensures layer.history == old(layer.history) + chunk && out == old(layer.keys) + chunk
  {
    hide Sound, Settled, Materialized, Step, Agree, Led;
    SinkFits(layer.cfg, layer.State(), layer.history);
    ReplayAgrees(cfg, before, lead, layer.cfg, layer.State(), chunk, coord.log);
    var r := layer.Update(chunk);
    out := r.value;
  }

  /** The followers take their chunks one after another, each replaying what the leader has logged. */
  method FollowAll(layers: seq<BankedRingLayer>, coord: Coord, chunks: seq<seq<KV>>, first: seq<KV>, ghost before: Bank)
    returns (outs: seq<seq<KV>>)
    requires layers != [] && Fits(chunks, |layers|) && forall i, j | 0 <= i < j < |layers| :: layers[i] != layers[j]
    requires forall i | 0 <= i < |layers| ::
      layers[i].Valid() && layers[i].coord == coord && layers[i].cfg.SameLimits(layers[0].cfg)
    requires forall i | 1 <= i < |layers| :: !layers[i].isLeader && Agree(before, layers[i].State())
    requires |before.win.sink| <= layers[0].cfg.sink && layers[0].cfg.Ok()
    requires Step(layers[0].cfg, before, chunks[0], coord.log) == Done(layers[0].State())
    modifies layers[1..], coord
    ensures coord.log == old(coord.log) && |outs| == |layers| && outs[0] == first
    ensures forall i | 1 <= i < |layers| ::
      && layers[i].Valid() && Agree(layers[0].State(), layers[i].State())
      && layers[i].history == old(layers[i].history) + chunks[i] && outs[i] == old(layers[i].keys) + chunks[i]
  {
    hide Sound, Settled, Materialized, Step, Agree;
    outs := [first];
    ghost var after := layers[0].State();
    var i := 1;
    while i < |layers|
      invariant 1 <= i <= |layers| && |outs| == i && outs[0] == first
      invariant coord.log == old(coord.log) && layers[0].State() == after
      invariant forall j | 1 <= j < i ::
        && layers[j].Valid() && Agree(after, layers[j].State())
        && layers[j].history == old(layers[j].history) + chunks[j]
        && outs[j] == old(layers[j].keys) + chunks[j]
      invariant forall j | i <= j < |layers| ::
        && layers[j].State() == old(layers[j].State()) && layers[j].history == old(layers[j].history)
        && layers[j].keys == old(layers[j].keys) && layers[j].Valid()
    {
      var out := Follow(layers[i], coord, chunks[i], layers[0].cfg, before, chunks[0], after);
      outs := outs + [out];
      i := i + 1;
    }
  }

  /**
   * One forward pass: each layer gets its own chunk of the same length, the leader first. No
   * follower ever reads past the log or finds a decision of the wrong kind, and the layers agree again.
   */
  method ForwardChunk(layers: seq<BankedRingLayer>, coord: Coord, chunks: seq<seq<KV>>) returns (outs: seq<seq<KV>>)
    requires Synced(layers, coord)
    requires Fits(chunks, |layers|)
    modifies layers, coord
    ensures Synced(layers, coord)
    ensures |outs| == |layers| && old(coord.log) <= coord.log
    ensures forall i | 0 <= i < |layers| ::
      && layers[i].history == old(layers[i].history) + chunks[i]
      && outs[i] == old(layers[i].keys) + chunks[i]
  {
    hide Sound, Settled, Materialized, Step, Agree, Led, Admit;
    ghost var before := layers[0].State();
    var first := layers[0].Update(chunks[0]);
    AgreeSelf(layers[0].State());
    outs := FollowAll(layers, coord, chunks, first.value, before);
  }

  /** Any number of forward passes: the layers stay in step and each has seen its own stream. */
  method ForwardAll(layers: seq<BankedRingLayer>, coord: Coord, rounds: seq<seq<seq<KV>>>)
    requires Synced(layers, coord)
    requires forall k | 0 <= k < |rounds| :: Fits(rounds[k], |layers|)
    modifies layers, coord
    ensures Synced(layers, coord)
    ensures forall i | 0 <= i < |layers| :: layers[i].history == old(layers[i].history) + Column(rounds, i)
  {
    hide Synced;
    assert Column<KV>(rounds[..0], 0) == [];
    var k := 0;
    while k < |rounds|
      invariant 0 <= k <= |rounds| && Synced(layers, coord)
      invariant forall i | 0 <= i < |layers| :: layers[i].history == old(layers[i].history) + Column(rounds[..k], i)
    {
      assert Fits(rounds[k], |layers|);
      assert rounds[..k + 1][..k] == rounds[..k];
      var _ := ForwardChunk(layers, coord, rounds[k]);
      forall i | 0 <= i < |layers|
        ensures layers[i].history == old(layers[i].history) + Column(rounds[..k + 1], i)
      {
        Associative(old(layers[i].history), Column(rounds[..k], i), rounds[k][i]);
      }
      k := k + 1;
    }
    assert rounds[..k] == rounds;
  }
}
