/** RoutedSpanLayer: followers replay the leader, and memory stays flat. */
module SpanBounds {
  import opened Lists
  import opened Tokens
  import opened Eviction
  import opened OpLog
  import opened Routed
  import SpanRetention
  import opened SpanSplit
  import opened RoutedSpanSpec

  // ---- replaying the log --------------------------------------------------

  ghost predicate SpansAgree(a: seq<Span>, b: seq<Span>) {
    |a| == |b| && forall i | 0 <= i < |a| :: a[i].pos == b[i].pos && |a[i].tokens| == |b[i].tokens|
  }

  /** Equal structure: everything but the key and value contents. */
  ghost predicate Agree(a: Bank, b: Bank) {
    && |a.win.sink| == |b.win.sink| && |a.win.pend| == |b.win.pend| && |a.win.ring| == |b.win.ring|
    && a.evicted == b.evicted && a.seen == b.seen && a.cursor == b.cursor && a.chunks == b.chunks
    && |a.slots| == |b.slots|
    && forall s | 0 <= s < |a.slots| ::
       a.slots[s].count == b.slots[s].count && SpansAgree(a.slots[s].spans, b.slots[s].spans)
  }

  lemma AgreeSelf(a: Bank)
    ensures Agree(a, a)
  {
  }

  lemma {:induction false} AgreeTokenCount(a: seq<Span>, b: seq<Span>)
    requires SpansAgree(a, b)
    ensures |SpanTokens(a)| == |SpanTokens(b)| && SpanPositions(a) == SpanPositions(b)
  {
    if a == [] {
    } else {
      AgreeTokenCount(a[..|a| - 1], b[..|b| - 1]);
    }
  }

  lemma StepsAgree(c1: Config, s1: SpanSlot, x: seq<KV>, c2: Config, s2: SpanSlot, y: seq<KV>, start: nat,
                   bounds: Bounds, assign: seq<nat>, s: nat, keep: seq<nat>)
    requires s1.count == s2.count && SpansAgree(s1.spans, s2.spans) && |x| == |y|
    requires |assign| == |bounds| && InRange(bounds, |x|) && KeepFits(s1, |Pick<(nat, nat)>(bounds, assign, s)|, keep)
    ensures KeepFits(s2, |Pick<(nat, nat)>(bounds, assign, s)|, keep)
    ensures var r1 := SlotStep(c1, s1, x, start, bounds, assign, s, keep);
            var r2 := SlotStep(c2, s2, y, start, bounds, assign, s, keep);
            r1.count == r2.count && SpansAgree(r1.spans, r2.spans)
  {
    hide Pick, AbsorbSpans, NewSpans, InRange, SpanTokens, SpanPositions, SlotStep, SpansAgree, Increasing;
    var n1, n2 := NewSpans(x, start, bounds, assign, s), NewSpans(y, start, bounds, assign, s);
    NewSpansAgree(x, y, start, bounds, assign, s);
    AgreeTokenCount(n1, n2);
    SameCount(s1.spans, s2.spans);
    SlotStepParts(c1, s1, x, start, bounds, assign, s, keep);
    SlotStepParts(c2, s2, y, start, bounds, assign, s, keep);
    SelectedAgree(s1.spans, s2.spans, n1, n2, keep);
  }

  lemma SameCount(a: seq<Span>, b: seq<Span>)
    requires SpansAgree(a, b)
    ensures |a| == |b|
  {
  }

  lemma NewSpansAgree(x: seq<KV>, y: seq<KV>, start: nat, bounds: Bounds, assign: seq<nat>, s: nat)
    requires |x| == |y| && |assign| == |bounds| && InRange(bounds, |x|)
    ensures SpansAgree(NewSpans(x, start, bounds, assign, s), NewSpans(y, start, bounds, assign, s))
  {
    hide Pick;
    PickInRange(bounds, assign, s, |x|);
  }

  lemma SelectedAgree(a: seq<Span>, b: seq<Span>, m: seq<Span>, n: seq<Span>, keep: seq<nat>)
    requires SpansAgree(a, b) && SpansAgree(m, n) && Below(keep, |a + m|) && Below(keep, |b + n|)
    ensures SpansAgree(Select(a + m, keep), Select(b + n, keep))
  {
  }

  lemma FoldAgrees(c1: Config, a: Bank, c2: Config, b: Bank, bounds: Bounds, assign: seq<nat>,
                   keeps: map<nat, seq<nat>>, routed: nat)
    requires c1.SameLimits(c2) && Agree(a, b) && SpanFits(c1, a, bounds, assign, keeps, routed)
    ensures SpanFits(c2, b, bounds, assign, keeps, routed)
    ensures Agree(RouteFold(c1, a, bounds, assign, keeps, routed), RouteFold(c2, b, bounds, assign, keeps, routed))
  {
    hide Pick, Tiled, SlotStep, TokenLabels, InRange, Below, SpansAgree;
    var start := c1.sink + a.evicted;
    forall s | 0 <= s < c2.mSlots && s in keeps
      ensures KeepFits(b.slots[s], |Pick<(nat, nat)>(bounds, assign, s)|, keeps[s])
    {
      StepsAgree(c1, a.slots[s], a.win.pend, c2, b.slots[s], b.win.pend, start, bounds, assign, s, keeps[s]);
    }
    hide KeepFits;
    forall s | 0 <= s < c2.mSlots
      ensures var r1 := RoutedSlot(c1, a, bounds, assign, keeps, routed, s);
              var r2 := RoutedSlot(c2, b, bounds, assign, keeps, routed, s);
              r1.count == r2.count && SpansAgree(r1.spans, r2.spans)
    {
      if s in keeps {
        StepsAgree(c1, a.slots[s], a.win.pend, c2, b.slots[s], b.win.pend, start, bounds, assign, s, keeps[s]);
      }
    }
  }

  lemma AdmitAgrees(c1: Config, a: Bank, x: seq<KV>, c2: Config, b: Bank, y: seq<KV>)
    requires c1.SameLimits(c2) && |a.win.sink| <= c1.sink && |b.win.sink| <= c2.sink && Agree(a, b) && |x| == |y|
    ensures var p, q := Admitted(c1, a, x), Admitted(c2, b, y);
            Agree(p, q) && |p.win.pend| == |q.win.pend| && p.cursor == q.cursor
  {
    hide SpansAgree;
  }

  /**
   * A follower in the leader's structure that replays the leader's log never faults, keeps spans at
   * the same positions, and stays in the leader's structure.
   */
  lemma ReplayAgrees(c1: Config, a: Bank, x: seq<KV>, c2: Config, b: Bank, y: seq<KV>, log: seq<Op>)
    requires c1.SameLimits(c2) && |a.win.sink| <= c1.sink && |b.win.sink| <= c2.sink
    requires Agree(a, b) && |x| == |y| && Step(c1, a, x, log).Done?
    ensures Step(c2, b, y, log).Done?
    ensures Agree(Step(c1, a, x, log).value, Step(c2, b, y, log).value)
  {
    hide Agree, Admit, SpanFits, RouteFold;
    AdmitAgrees(c1, a, x, c2, b, y);
    var p, q := Admitted(c1, a, x), Admitted(c2, b, y);
    if |p.win.pend| >= c1.routeChunk {
      var op := log[p.cursor];
      FoldAgrees(c1, p, c2, q, op.bounds, op.assign, op.keeps, op.routed);
    }
  }

  lemma {:induction false} AgreeSlotKeys(a: seq<SpanSlot>, b: seq<SpanSlot>)
    requires |a| == |b| && forall s | 0 <= s < |a| :: a[s].count == b[s].count && SpansAgree(a[s].spans, b[s].spans)
    ensures |SlotKeys(Views(a))| == |SlotKeys(Views(b))|
  {
    if a == [] {
    } else {
      var n := |a| - 1;
      AgreeSlotKeys(a[..n], b[..n]);
      AgreeTokenCount(a[n].spans, b[n].spans);
      assert Views(a)[..n] == Views(a[..n]) && Views(b)[..n] == Views(b[..n]);
    }
  }

  /** Layers that agree materialise caches of one size and one layout. */
  lemma AgreeSameSize(a: Bank, b: Bank)
    requires Agree(a, b)
    ensures |Materialized(a.win, Views(a.slots))| == |Materialized(b.win, Views(b.slots))|
  {
    AgreeSlotKeys(a.slots, b.slots);
  }

  // ---- flat memory --------------------------------------------------------

  function SlotMax(cfg: Config): nat { Max(cfg.budget, Max(cfg.maxSpan, cfg.fallback)) }

  /** Every kept span is short, and together they stay in the budget or are a single span. */
  ghost predicate SlotBounded(cfg: Config, spans: seq<Span>) {
    && (forall i | 0 <= i < |spans| :: |spans[i].pos| <= cfg.Split().Limit())
    && (|spans| <= 1 || |SpanPositions(spans)| <= cfg.budget)
  }

  /** The longest the pending tail gets when no chunk is longer than `longest`. */
  function PendMax(cfg: Config, longest: nat): int {
    Max(cfg.routeChunk + longest - 2, cfg.fallback - 1)
  }

  /**
   * The run invariant behind flat memory: the tail is bounded, and a tail as long as a routing chunk
   * holds no sentence break -- else the last fold would have taken it.
   */
  ghost predicate Flat(cfg: Config, mask: Option<seq<bool>>, longest: nat, b: Bank) {
    && |b.win.pend| <= PendMax(cfg, longest)
    && (|b.win.pend| >= cfg.routeChunk ==> Quiet(mask, cfg.sink + b.evicted, cfg.sink + b.evicted + |b.win.pend|))
    && forall s | 0 <= s < |b.slots| :: SlotBounded(cfg, b.slots[s].spans)
  }

  /** What the leader guarantees of a decision: routed up to the last break, and slots within bounds. */
  ghost predicate OpBounded(cfg: Config, mask: Option<seq<bool>>, a: Bank, bounds: Bounds, assign: seq<nat>,
                            keeps: map<nat, seq<nat>>, routed: nat)
  {
    && cfg.Ok() && SpanFits(cfg, a, bounds, assign, keeps, routed)
    && RoutedPart(cfg.Split(), mask, cfg.sink + a.evicted, |a.win.pend|, routed)
    && forall s | 0 <= s < cfg.mSlots :: SlotBounded(cfg, RoutedSlot(cfg, a, bounds, assign, keeps, routed, s).spans)
  }

  /** The decision consumed by an update, if it folds, is a bounded one. */
  ghost predicate StepBounded(cfg: Config, mask: Option<seq<bool>>, b: Bank, chunk: seq<KV>, log: seq<Op>)
    requires |b.win.sink| <= cfg.sink
  {
    var a := Admitted(cfg, b, chunk);
    |a.win.pend| >= cfg.routeChunk ==>
      && a.cursor < |log| && log[a.cursor].RouteSpan?
      && OpBounded(cfg, mask, a, log[a.cursor].bounds, log[a.cursor].assign, log[a.cursor].keeps, log[a.cursor].routed)
  }

  lemma TailStep(cfg: Config, mask: Option<seq<bool>>, longest: nat, start: nat, before: nat, pend: nat, chunk: nat,
                 routed: nat)
    requires cfg.Ok() && before <= pend <= before + chunk && pend >= cfg.routeChunk
    requires before >= cfg.routeChunk ==> Quiet(mask, start, start + before)
    requires RoutedPart(cfg.Split(), mask, start, pend, routed) && routed > 0
    ensures pend - routed <= PendMax(cfg, Max(longest, chunk))
    ensures Quiet(mask, start + routed, start + pend)
  {
    TailIsQuiet(cfg.Split(), mask, start, pend, routed);
    if before >= cfg.routeChunk {
      QuietPrefixIsRouted(cfg.Split(), mask, start, pend, routed, before);
    }
  }

  lemma FlatStep(cfg: Config, mask: Option<seq<bool>>, longest: nat, b: Bank, h: seq<KV>, blocks: seq<Block>,
                 chunk: seq<KV>, log: seq<Op>)
    requires cfg.Ok() && Sound(cfg, b, h, blocks) && |b.win.sink| <= cfg.sink && Step(cfg, b, chunk, log).Done?
    requires Flat(cfg, mask, longest, b) && StepBounded(cfg, mask, b, chunk, log)
    ensures Flat(cfg, mask, Max(longest, |chunk|), Step(cfg, b, chunk, log).value)
  {
    hide Admit, SlotBounded, RoutedPart, Quiet, SpanFits, RouteFold, RoutedSlot;
    PendGrowth(cfg, b, h, blocks, chunk);
    hide Sound;
    var a := Admitted(cfg, b, chunk);
    if |a.win.pend| >= cfg.routeChunk {
      var op := log[a.cursor];
      hide Flat;
      FoldFlat(cfg, mask, longest, b, a, |chunk|, op.bounds, op.assign, op.keeps, op.routed);
    }
  }

  lemma PendGrowth(cfg: Config, b: Bank, h: seq<KV>, blocks: seq<Block>, chunk: seq<KV>)
    requires Sound(cfg, b, h, blocks) && |b.win.sink| <= cfg.sink
    ensures |b.win.pend| <= |Admitted(cfg, b, chunk).win.pend| <= |b.win.pend| + |chunk|
  {
    AdmitGrowth(cfg.sink, cfg.window, b.win, b.evicted, h, chunk);
  }

  /** A bounded fold of a tail that has grown by one chunk. */
  lemma FoldFlat(cfg: Config, mask: Option<seq<bool>>, longest: nat, b: Bank, a: Bank, chunk: nat, bounds: Bounds,
                 assign: seq<nat>, keeps: map<nat, seq<nat>>, routed: nat)
    requires Flat(cfg, mask, longest, b) && OpBounded(cfg, mask, a, bounds, assign, keeps, routed)
    requires |b.win.pend| <= |a.win.pend| <= |b.win.pend| + chunk && |a.win.pend| >= cfg.routeChunk
    requires a.evicted == b.evicted
    ensures Flat(cfg, mask, Max(longest, chunk), RouteFold(cfg, a, bounds, assign, keeps, routed))
  {
    hide SlotBounded, RoutedPart, Quiet, SpanFits, RouteFold, RoutedSlot;
    FoldedShape(cfg, a, bounds, assign, keeps, routed);
    TailStep(cfg, mask, longest, cfg.sink + b.evicted, |b.win.pend|, |a.win.pend|, chunk, routed);
  }

  lemma FoldedShape(cfg: Config, a: Bank, bounds: Bounds, assign: seq<nat>, keeps: map<nat, seq<nat>>, routed: nat)
    requires SpanFits(cfg, a, bounds, assign, keeps, routed)
    ensures var r := RouteFold(cfg, a, bounds, assign, keeps, routed);
            && 0 < routed <= |a.win.pend| && |r.win.pend| == |a.win.pend| - routed
            && r.evicted == a.evicted + routed && |r.slots| == cfg.mSlots
            && forall s | 0 <= s < cfg.mSlots :: r.slots[s] == RoutedSlot(cfg, a, bounds, assign, keeps, routed, s)
  {
    hide RoutedSlot, Tiled, InRange;
  }

  lemma {:induction false} SlotKeysMax(cfg: Config, slots: seq<SpanSlot>)
    requires forall s | 0 <= s < |slots| :: |SpanTokens(slots[s].spans)| <= SlotMax(cfg)
    ensures |SlotKeys(Views(slots))| <= |slots| * (1 + SlotMax(cfg))
  {
    if slots == [] {
    } else {
      var n := |slots| - 1;
      SlotKeysMax(cfg, slots[..n]);
      assert Views(slots)[..n] == Views(slots[..n]);
      OneMore(n, 1 + SlotMax(cfg));
      hide SpanTokens, SlotMax;
    }
  }

  lemma OneMore(n: nat, each: nat)
    ensures (n + 1) * each == n * each + each
  {
  }

  /** A bounded slot holds at most its budget, or one span. */
  lemma SlotSize(cfg: Config, spans: seq<Span>)
    requires SlotBounded(cfg, spans)
    ensures |SpanPositions(spans)| <= SlotMax(cfg)
  {
    if |spans| == 1 {
      assert SpanPositions(spans) == SpanPositions(spans[..0]) + spans[0].pos;
    }
  }

  /** Spans at the same positions are bounded alike. */
  lemma AgreeBounded(cfg: Config, a: seq<Span>, b: seq<Span>)
    requires SpansAgree(a, b) && SlotBounded(cfg, a)
    ensures SlotBounded(cfg, b)
  {
    AgreeTokenCount(a, b);
    forall i | 0 <= i < |b| ensures |b[i].pos| <= cfg.Split().Limit() {
      assert a[i].pos == b[i].pos;
    }
  }

  function KeysMax(cfg: Config, longest: nat): int {
    cfg.sink + cfg.window + PendMax(cfg, longest) + cfg.mSlots * (1 + SlotMax(cfg))
  }

  /** Flat memory: the materialised cache has a bound that no history length enters. */
  lemma FlatMemory(cfg: Config, mask: Option<seq<bool>>, longest: nat, b: Bank, h: seq<KV>, blocks: seq<Block>)
    requires Sound(cfg, b, h, blocks) && Flat(cfg, mask, longest, b)
    ensures |Materialized(b.win, Views(b.slots))| <= KeysMax(cfg, longest)
  {
    hide BankOk, BlocksOk, ChunksOk, SpanSound, InOrder, SlotMax, Increasing, SlotKeys;
    forall s | 0 <= s < |b.slots| ensures |SpanTokens(b.slots[s].spans)| <= SlotMax(cfg) {
      assert SpansSound(b.slots[s], s, h, blocks) && SlotBounded(cfg, b.slots[s].spans);
      SpansAreReps(cfg.sink, b.slots[s].spans, s, h, blocks, Labels(b.chunks));
      SlotSize(cfg, b.slots[s].spans);
    }
    SlotKeysMax(cfg, b.slots);
    WindowFits(cfg, b, h, blocks);
  }

  lemma WindowFits(cfg: Config, b: Bank, h: seq<KV>, blocks: seq<Block>)
    requires Sound(cfg, b, h, blocks)
    ensures |b.win.sink| <= cfg.sink && |b.win.ring| <= cfg.window && |b.slots| == cfg.mSlots
    ensures |b.win.ring| <= b.seen == |h| && b.evicted == |Labels(b.chunks)|
  {
    hide SlotOk, BlocksOk, SpansSound, ChunksOk;
  }

  // ---- from retention to slot bounds --------------------------------------

  /** Length of every candidate span: the old ones of the slot, then the new ones. */
  function Lengths(spans: seq<Span>): (r: seq<nat>)
    ensures |r| == |spans| && forall i | 0 <= i < |r| :: r[i] == |spans[i].pos|
  {
    seq(|spans|, i requires 0 <= i < |spans| => |spans[i].pos|)
  }

  lemma {:induction false} SelectedLength(spans: seq<Span>, keep: seq<nat>)
    requires Below(keep, |spans|)
    ensures |SpanPositions(Select(spans, keep))| == SpanRetention.Used(Lengths(spans), keep)
  {
    if keep != [] {
      var n := |keep| - 1;
      SelectedLength(spans, keep[..n]);
      assert Select(spans, keep)[..n] == Select(spans, keep[..n]);
    } else {
      assert Select(spans, keep) == [];
    }
  }

  lemma SelectedBounded(cfg: Config, spans: seq<Span>, keep: seq<nat>)
    requires Below(keep, |spans|) && forall i | 0 <= i < |spans| :: |spans[i].pos| <= cfg.Split().Limit()
    requires |keep| == 1 || SpanRetention.Used(Lengths(spans), keep) <= cfg.budget
    ensures SlotBounded(cfg, Select(spans, keep))
  {
    SelectedLength(spans, keep);
  }
}
