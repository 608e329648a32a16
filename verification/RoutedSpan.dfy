/** RoutedSpanLayer: whole spans of evicted tokens are routed to slots; followers replay the leader. */
module RoutedSpan {
  import opened Lists
  import opened Tokens
  import opened Eviction
  import opened OpLog
  import opened Routed
  import SpanRetention
  import opened SpanSplit
  import opened RoutedSpanSpec
  import opened SpanBounds
  import opened SpanLeader
  import opened SpanMean

  /** Collects the chunk's spans for slot `s`, updating count and mean span by span. */
  method TakeSpans(cfg: Config, slot: SpanSlot, cut: seq<KV>, start: nat, bounds: Bounds, assign: seq<nat>, s: nat)
    returns (added: seq<Span>, count: nat, mean: KV)
    requires |assign| == |bounds| && InRange(bounds, |cut|)
    ensures added == NewSpans(cut, start, bounds, assign, s)
    ensures count == slot.count + |SpanTokens(added)| && mean == AbsorbSpans(cfg.dim, slot.mean, slot.count, added)
  {
    hide Taken, Absorb, NewSpans, AbsorbSpans, SpanTokens, InRange;
    added, count, mean := [], slot.count, slot.mean;
    var j := 0;
    NoneTaken(cfg, slot, cut, start, bounds, assign, s);
    while j < |bounds|
      invariant 0 <= j <= |bounds| && Taken(cfg, slot, cut, start, bounds, assign, s, j, added, count, mean)
    {
      TakenNext(cfg, slot, cut, start, bounds, assign, s, j, added, count, mean);
      if assign[j] == s {
        var (a, b) := bounds[j];
        mean := Absorb(cfg.dim, mean, count, cut[a..b]);
        count := count + (b - a);
        added := added + [Span(cut[a..b], Range(start + a, b - a))];
      }
      j := j + 1;
    }
    TakenAll(cfg, slot, cut, start, bounds, assign, s, added, count, mean);
  }

  /** What has been taken from the first `j` spans. */
  ghost predicate Taken(cfg: Config, slot: SpanSlot, cut: seq<KV>, start: nat, bounds: Bounds, assign: seq<nat>, s: nat,
                        j: nat, added: seq<Span>, count: nat, mean: KV)
    requires |assign| == |bounds| && j <= |bounds|
  {
    && InRange(bounds[..j], |cut|) && added == NewSpans(cut, start, bounds[..j], assign[..j], s)
    && count == slot.count + |SpanTokens(added)| && mean == AbsorbSpans(cfg.dim, slot.mean, slot.count, added)
  }

  lemma NoneTaken(cfg: Config, slot: SpanSlot, cut: seq<KV>, start: nat, bounds: Bounds, assign: seq<nat>, s: nat)
    requires |assign| == |bounds|
    ensures Taken(cfg, slot, cut, start, bounds, assign, s, 0, [], slot.count, slot.mean)
  {
  }

  lemma TakenNext(cfg: Config, slot: SpanSlot, cut: seq<KV>, start: nat, bounds: Bounds, assign: seq<nat>, s: nat,
                  j: nat, added: seq<Span>, count: nat, mean: KV)
    requires |assign| == |bounds| && InRange(bounds, |cut|) && j < |bounds|
    requires Taken(cfg, slot, cut, start, bounds, assign, s, j, added, count, mean)
    ensures bounds[j].0 < bounds[j].1 <= |cut|
    ensures var (a, b) := bounds[j];
      if assign[j] == s
      then Taken(cfg, slot, cut, start, bounds, assign, s, j + 1, added + [Span(cut[a..b], Range(start + a, b - a))],
                 count + (b - a), Absorb(cfg.dim, mean, count, cut[a..b]))
      else Taken(cfg, slot, cut, start, bounds, assign, s, j + 1, added, count, mean)
  {
    hide NewSpans, Absorb, Pick, SpanTokens, AbsorbSpans, InRange;
    NextSpan(cut, start, bounds, assign, s, j);
    if assign[j] == s {
      var (a, b) := bounds[j];
      AbsorbOne(cfg.dim, slot.mean, slot.count, added, Span(cut[a..b], Range(start + a, b - a)));
    }
  }

  lemma TakenAll(cfg: Config, slot: SpanSlot, cut: seq<KV>, start: nat, bounds: Bounds, assign: seq<nat>, s: nat,
                 added: seq<Span>, count: nat, mean: KV)
    requires |assign| == |bounds| && InRange(bounds, |cut|)
    requires Taken(cfg, slot, cut, start, bounds, assign, s, |bounds|, added, count, mean)
    ensures added == NewSpans(cut, start, bounds, assign, s)
    ensures count == slot.count + |SpanTokens(added)| && mean == AbsorbSpans(cfg.dim, slot.mean, slot.count, added)
  {
    assert bounds[..|bounds|] == bounds && assign[..|bounds|] == assign;
  }

  lemma NextSpan(cut: seq<KV>, start: nat, bounds: Bounds, assign: seq<nat>, s: nat, j: nat)
    requires |assign| == |bounds| && InRange(bounds, |cut|) && j < |bounds|
    ensures bounds[j].0 < bounds[j].1 <= |cut| && InRange(bounds[..j], |cut|) && InRange(bounds[..j + 1], |cut|)
    ensures NewSpans(cut, start, bounds[..j + 1], assign[..j + 1], s)
         == NewSpans(cut, start, bounds[..j], assign[..j], s)
            + if assign[j] == s
              then [Span(cut[bounds[j].0..bounds[j].1], Range(start + bounds[j].0, bounds[j].1 - bounds[j].0))]
              else []
  {
    PrefixStep(bounds, assign, j);
    NewSpansSnoc(cut, start, bounds[..j + 1], assign[..j + 1], s);
  }

  lemma PrefixStep(bounds: Bounds, assign: seq<nat>, j: nat)
    requires |assign| == |bounds| && j < |bounds|
    ensures bounds[..j + 1][..j] == bounds[..j] && assign[..j + 1][..j] == assign[..j]
  {
  }

  lemma AbsorbOne(dim: nat, m: KV, n: nat, spans: seq<Span>, last: Span)
    requires (forall i | 0 <= i < |spans| :: spans[i].tokens != []) && last.tokens != []
    ensures AbsorbSpans(dim, m, n, spans + [last])
         == Absorb(dim, AbsorbSpans(dim, m, n, spans), n + |SpanTokens(spans)|, last.tokens)
    ensures |SpanTokens(spans + [last])| == |SpanTokens(spans)| + |last.tokens|
  {
    assert (spans + [last])[..|spans|] == spans;
  }

  /** The slot of every routed token, written span by span. */
  method LabelTokens(bounds: Bounds, assign: seq<nat>) returns (labels: seq<nat>)
    requires |assign| == |bounds|
    ensures labels == TokenLabels(bounds, assign)
  {
    labels := [];
    var j := 0;
    while j < |bounds|
      invariant 0 <= j <= |bounds| && labels == TokenLabels(bounds[..j], assign[..j])
    {
      PrefixStep(bounds, assign, j);
      labels := labels + seq(Width(bounds[j]), _ => assign[j]);
      j := j + 1;
    }
    assert bounds[..j] == bounds && assign[..j] == assign;
  }

  /** Applies one routing decision, slot after slot. */
  method ApplyRoute(cfg: Config, b: Bank, bounds: Bounds, assign: seq<nat>, keeps: map<nat, seq<nat>>, routed: nat)
    returns (r: Bank)
    requires SpanFits(cfg, b, bounds, assign, keeps, routed)
    ensures r == RouteFold(cfg, b, bounds, assign, keeps, routed)
  {
    hide Pick, Tiled, NewSpans, SpanTokens, AbsorbSpans, TokenLabels, InRange, Increasing;
    var cut, start := b.win.pend, cfg.sink + b.evicted;
    var slots := b.slots;
    var s := 0;
    while s < cfg.mSlots
      invariant 0 <= s <= cfg.mSlots == |slots|
      invariant forall t | 0 <= t < s :: slots[t] == RoutedSlot(cfg, b, bounds, assign, keeps, routed, t)
      invariant forall t | s <= t < cfg.mSlots :: slots[t] == b.slots[t]
    {
      if s in keeps {
        var added, count, mean := TakeSpans(cfg, slots[s], cut, start, bounds, assign, s);
        assert KeepFits(b.slots[s], |Pick<(nat, nat)>(bounds, assign, s)|, keeps[s]);
        NewSpansCount(cut, start, bounds, assign, s);
        var next := SpanSlot(count, mean, Select(slots[s].spans + added, keeps[s]));
        assert next == RoutedSlot(cfg, b, bounds, assign, keeps, routed, s);
        slots := slots[s := next];
      }
      s := s + 1;
    }
    var labels := LabelTokens(bounds, assign);
    assert slots == RouteFold(cfg, b, bounds, assign, keeps, routed).slots;
    r := b.(win := b.win.(pend := b.win.pend[routed..]), evicted := b.evicted + routed, slots := slots,
            chunks := b.chunks + [Assigned(start, labels)], cursor := b.cursor + 1);
  }

  lemma FoldedCursor(cfg: Config, b: Bank, bounds: Bounds, assign: seq<nat>, keeps: map<nat, seq<nat>>, routed: nat)
    requires SpanFits(cfg, b, bounds, assign, keeps, routed)
    ensures RouteFold(cfg, b, bounds, assign, keeps, routed).cursor == b.cursor + 1
  {
  }

  lemma SpansNonEmpty(cfg: Config, b: Bank, h: seq<KV>, blocks: seq<Block>)
    requires Sound(cfg, b, h, blocks)
    ensures forall s, i | 0 <= s < |b.slots| && 0 <= i < |b.slots[s].spans| :: b.slots[s].spans[i].pos != []
  {
    forall s, i | 0 <= s < |b.slots| && 0 <= i < |b.slots[s].spans| ensures b.slots[s].spans[i].pos != [] {
      assert SpansSound(b.slots[s], s, h, blocks);
      assert SpanSound(b.slots[s].spans[i], s, h, blocks);
    }
  }

  lemma OpFits(cfg: Config, mask: Option<seq<bool>>, a: Bank, bounds: Bounds, assign: seq<nat>,
               keeps: map<nat, seq<nat>>, routed: nat)
    requires OpBounded(cfg, mask, a, bounds, assign, keeps, routed)
    ensures SpanFits(cfg, a, bounds, assign, keeps, routed)
  {
  }

  /** `op` is what the leader decides on this tail: split, featured, assigned in turn, retained. */
  ghost predicate Chosen(cfg: Config, mask: Option<seq<bool>>, lead: Leader, a: Bank, op: Op, lead': Leader) {
    && op.RouteSpan? && cfg.Ok() && SplitOk(cfg.Split(), mask, cfg.sink + a.evicted, |a.win.pend|, op.bounds, op.routed)
    && a.win.pend != [] && lead'.gcnt == lead.gcnt + |a.win.pend|
    && lead'.gmean == Absorb(cfg.dim, lead.gmean, lead.gcnt, a.win.pend)
    && exists feats, trace ::
         && Featured(cfg, a.win.pend, lead'.gmean.value, op.bounds, feats)
         && AssignedInTurn(cfg, lead, feats, op.assign, trace, Clusters(lead'.cent, lead'.active))
         && AllRetained(cfg, lead.feats, a.slots, feats, op.bounds, op.assign, op.keeps, lead'.feats)
  }

  /** A deciding layer logs exactly one decision when the tail fills a chunk, and nothing otherwise. */
  ghost predicate Led(cfg: Config, mask: Option<seq<bool>>, lead: Leader, a: Bank, log: seq<Op>, log': seq<Op>,
                      lead': Leader)
  {
    if |a.win.pend| < cfg.routeChunk then log' == log && lead' == lead
    else |log'| == |log| + 1 && log <= log' && Chosen(cfg, mask, lead, a, log'[|log|], lead')
  }

  /** A decision of the leader is a bounded one, and its records follow the fold. */
  method LeadDecides(cfg: Config, mask: Option<seq<bool>>, lead: Leader, a: Bank, ghost h: seq<KV>,
                     ghost blocks: seq<Block>)
    returns (bounds: Bounds, assign: seq<nat>, keeps: map<nat, seq<nat>>, routed: nat, lead': Leader)
    requires cfg.Ok() && Sound(cfg, a, h, blocks) && LeadOk(cfg, lead, a) && |a.win.pend| >= cfg.routeChunk
    requires forall s | 0 <= s < |a.slots| :: SlotBounded(cfg, a.slots[s].spans)
    ensures OpBounded(cfg, mask, a, bounds, assign, keeps, routed) && SpanFits(cfg, a, bounds, assign, keeps, routed)
    ensures LeadOk(cfg, lead', RouteFold(cfg, a, bounds, assign, keeps, routed))
    ensures Chosen(cfg, mask, lead, a, RouteSpan(bounds, assign, keeps, routed), lead')
  {
    hide Sound, LeadOk, SpanFits, RouteFold, OpBounded, SplitOk, SlotBounded, Featured, AssignedInTurn, AllRetained;
    SpansNonEmpty(cfg, a, h, blocks);
    ghost var feats, trace;
    bounds, assign, keeps, routed, lead', feats, trace := DecideSpans(cfg, mask, lead, a);
    OpFits(cfg, mask, a, bounds, assign, keeps, routed);
  }

  /**
   * Routes pending spans once they fill a routing chunk: a deciding layer logs a bounded decision, a
   * follower takes the one at its cursor.
   */
  method FoldFull(cfg: Config, mask: Option<seq<bool>>, a: Bank, lead: Leader, ghost h: seq<KV>,
                  ghost blocks: seq<Block>, log: seq<Op>, decides: bool)
    returns (r: Outcome<Bank>, log': seq<Op>, lead': Leader)
    requires cfg.Ok() && Sound(cfg, a, h, blocks)
    requires decides ==>
      a.cursor == |log| && LeadOk(cfg, lead, a) && forall s | 0 <= s < |a.slots| :: SlotBounded(cfg, a.slots[s].spans)
    ensures log <= log' && r == FoldIfFull(cfg, a, log')
    ensures if decides then r.Done? && r.value.cursor == |log'| && LeadOk(cfg, lead', r.value) else log' == log
    ensures decides && |a.win.pend| >= cfg.routeChunk ==>
      a.cursor < |log'| && log'[a.cursor].RouteSpan?
      && OpBounded(cfg, mask, a, log'[a.cursor].bounds, log'[a.cursor].assign, log'[a.cursor].keeps,
                   log'[a.cursor].routed)
    ensures decides ==> Led(cfg, mask, lead, a, log, log', lead')
  {
    log', lead' := log, lead;
    if |a.win.pend| < cfg.routeChunk {
      return Done(a), log', lead';
    }
    hide Sound, LeadOk, SpanFits, RouteFold, OpBounded, SlotBounded, Chosen;
    var bounds: Bounds, assign: seq<nat>, keeps: map<nat, seq<nat>>, routed: nat := [], [], map[], 0;
    if decides {
      bounds, assign, keeps, routed, lead' := LeadDecides(cfg, mask, lead, a, h, blocks);
      log' := log + [RouteSpan(bounds, assign, keeps, routed)];
    } else if a.cursor >= |log| {
      return Raised(LogExhausted), log', lead';
    } else if !log[a.cursor].RouteSpan? {
      return Raised(Desync), log', lead';
    } else {
      var op := log[a.cursor];
      if !SpanFits(cfg, a, op.bounds, op.assign, op.keeps, op.routed) {
        return Raised(Misfit), log', lead';
      }
      bounds, assign, keeps, routed := op.bounds, op.assign, op.keeps, op.routed;
    }
    var folded := ApplyRoute(cfg, a, bounds, assign, keeps, routed);
    FoldedCursor(cfg, a, bounds, assign, keeps, routed);
    r := Done(folded);
  }

  lemma SlotsStay(cfg: Config, lead: Leader, mask: Option<seq<bool>>, longest: nat, b: Bank, chunk: seq<KV>)
    requires LeadOk(cfg, lead, b) && Flat(cfg, mask, longest, b) && |b.win.sink| <= cfg.sink
    ensures LeadOk(cfg, lead, Admitted(cfg, b, chunk))
    ensures forall s | 0 <= s < |b.slots| :: SlotBounded(cfg, Admitted(cfg, b, chunk).slots[s].spans)
  {
    hide SpanRetention.Apart, SlotBounded;
  }

  lemma Consumed(cfg: Config, mask: Option<seq<bool>>, b: Bank, chunk: seq<KV>, log: seq<Op>)
    requires |b.win.sink| <= cfg.sink
    requires var a := Admitted(cfg, b, chunk);
             |a.win.pend| >= cfg.routeChunk ==>
               && a.cursor < |log| && log[a.cursor].RouteSpan?
               && OpBounded(cfg, mask, a, log[a.cursor].bounds, log[a.cursor].assign, log[a.cursor].keeps,
                            log[a.cursor].routed)
    ensures StepBounded(cfg, mask, b, chunk, log)
  {
  }

  /** The lengths of the tails that decisions found, once the admitted state `a` has been folded. */
  ghost function NextTails(cfg: Config, a: Bank, tails: seq<nat>): seq<nat> {
    if |a.win.pend| < cfg.routeChunk then tails else tails + [|a.win.pend|]
  }

  /** What a deciding layer logs is a split of its tail, and its mean takes in exactly this tail. */
  lemma LedTells(cfg: Config, mask: Option<seq<bool>>, lead: Leader, b: Bank, a: Bank, h: seq<KV>, blocks: seq<Block>,
                 log: seq<Op>, tails: seq<nat>, log': seq<Op>, lead': Leader)
    requires cfg.Ok() && Led(cfg, mask, lead, a, log, log', lead') && Told(cfg, mask, lead, h, log, tails)
    requires Anchored(cfg, b, blocks, log) && b.cursor == |log| && a.evicted == b.evicted && Sound(cfg, a, h, blocks)
    ensures Told(cfg, mask, lead', h, log', NextTails(cfg, a, tails))
  {
    hide SplitOk, LogCut, MeanOk, Featured, AssignedInTurn, AllRetained, Absorb, LogBlocks, LogRouted, Sound;
    assert log[..b.cursor] == log;
    if |a.win.pend| >= cfg.routeChunk {
      var op := log'[|log|];
      assert log' == log + [op];
      LogCutGrows(cfg, mask, log, tails, op, |a.win.pend|);
      TailIsNext(cfg, a, h, blocks);
      MeanFolds(cfg, lead, h, log, tails, op, a.win.pend, lead');
    }
  }

  lemma TailIsNext(cfg: Config, a: Bank, h: seq<KV>, blocks: seq<Block>)
    requires Sound(cfg, a, h, blocks) && a.win.pend != []
    ensures cfg.sink + a.evicted + |a.win.pend| <= |h|
    ensures a.win.pend == Gone(h, cfg.sink + a.evicted, |a.win.pend|)
  {
    hide Sound;
    PendingIsNext(cfg, a, h, blocks);
  }

  /** The bookkeeping of one update of a layer in a sound state. */
  method Digest(cfg: Config, mask: Option<seq<bool>>, b: Bank, lead: Leader, ghost h: seq<KV>, ghost blocks: seq<Block>,
                ghost longest: nat, ghost tails: seq<nat>, chunk: seq<KV>, log: seq<Op>, decides: bool)
    returns (r: Outcome<Bank>, log': seq<Op>, lead': Leader)
    requires cfg.Ok() && Sound(cfg, b, h, blocks) && Anchored(cfg, b, blocks, log)
    requires decides ==>
      && b.cursor == |log| && LeadOk(cfg, lead, b) && Flat(cfg, mask, longest, b)
      && Told(cfg, mask, lead, h, log, tails)
    ensures |b.win.sink| <= cfg.sink && log <= log' && r == Step(cfg, b, chunk, log')
    ensures var more := NextBlocks(cfg, Admitted(cfg, b, chunk), blocks, log');
            r.Done? ==> Sound(cfg, r.value, h + chunk, more) && Anchored(cfg, r.value, more, log')
    ensures if decides then r.Done? && r.value.cursor == |log'| && LeadOk(cfg, lead', r.value)
                            && Flat(cfg, mask, Max(longest, |chunk|), r.value)
                            && Told(cfg, mask, lead', h + chunk, log', NextTails(cfg, Admitted(cfg, b, chunk), tails))
            else log' == log
    ensures decides ==> Led(cfg, mask, lead, Admitted(cfg, b, chunk), log, log', lead')
  {
    hide Sound, LeadOk, FoldIfFull, Admit, Led, Flat, OpBounded, SlotBounded, StepBounded, NextBlocks, Anchored, Told,
         NextTails;
    AdmittedSound(cfg, b, h, blocks, chunk);
    if decides {
      SlotsStay(cfg, lead, mask, longest, b, chunk);
    }
    var win := AdmitTokens(cfg.sink, cfg.window, b.win, chunk);
    var a := b.(win := win, seen := b.seen + |chunk|);
    r, log', lead' := FoldFull(cfg, mask, a, lead, h + chunk, blocks, log, decides);
    AnchoredGrows(cfg, b, blocks, log, log');
    if r.Done? {
      StepSound(cfg, b, h, blocks, chunk, log');
      AnchoredStep(cfg, b, blocks, chunk, log');
      if decides {
        ToldSurvives(cfg, mask, lead, h, log, tails, chunk);
        LedTells(cfg, mask, lead, b, a, h + chunk, blocks, log, tails, log', lead');
        Consumed(cfg, mask, b, chunk, log');
        FlatStep(cfg, mask, longest, b, h, blocks, chunk, log');
      }
    }
  }

  /** The tokens of the kept spans of one slot, span after span. */
  method JoinTokens(spans: seq<Span>) returns (r: seq<KV>)
    ensures r == SpanTokens(spans)
  {
    r := [];
    var i := 0;
    while i < |spans|
      invariant 0 <= i <= |spans| && r == SpanTokens(spans[..i])
    {
      assert spans[..i + 1][..i] == spans[..i];
      r := r + spans[i].tokens;
      i := i + 1;
    }
    assert spans[..i] == spans;
  }

  method JoinPositions(spans: seq<Span>) returns (r: seq<nat>)
    ensures r == SpanPositions(spans)
  {
    r := [];
    var i := 0;
    while i < |spans|
      invariant 0 <= i <= |spans| && r == SpanPositions(spans[..i])
    {
      assert spans[..i + 1][..i] == spans[..i];
      r := r + spans[i].pos;
      i := i + 1;
    }
    assert spans[..i] == spans;
  }

  lemma ViewsPrefix(slots: seq<SpanSlot>, s: nat)
    requires s < |slots|
    ensures SlotKeys(Views(slots[..s + 1]))
         == SlotKeys(Views(slots[..s]))
            + if slots[s].count > 0 then [slots[s].mean] + SpanTokens(slots[s].spans) else []
    ensures SlotEntries(Views(slots[..s + 1]))
         == SlotEntries(Views(slots[..s]))
            + if slots[s].count > 0 then [SlotMean(s)] + RepEntries(s, SpanPositions(slots[s].spans)) else []
  {
    assert Views(slots[..s + 1])[..s] == Views(slots[..s]);
    assert Views(slots[..s + 1])[s] == View(slots[s]);
  }

  /** sink, then mean and kept spans of every used slot, then pending and ring. */
  method Materialize(w: Window<KV>, slots: seq<SpanSlot>) returns (keys: seq<KV>)
    ensures keys == Materialized(w, Views(slots))
  {
    hide SlotKeys, Views, SpanTokens;
    var parts: seq<KV> := [];
    var s := 0;
    assert SlotKeys(Views(slots[..0])) == [] by { NoSlots(slots); }
    while s < |slots|
      invariant 0 <= s <= |slots| && parts == SlotKeys(Views(slots[..s]))
    {
      ViewsPrefix(slots, s);
      if slots[s].count > 0 {
        var tokens := JoinTokens(slots[s].spans);
        parts := parts + ([slots[s].mean] + tokens);
      }
      s := s + 1;
    }
    assert slots[..s] == slots;
    keys := w.sink + parts + w.pend + w.ring;
  }

  lemma NoSlots(slots: seq<SpanSlot>)
    ensures SlotKeys(Views(slots[..0])) == [] && SlotEntries(Views(slots[..0])) == []
  {
  }

  /** The origin of every materialised entry, from counts, positions and lengths alone. */
  method BuildLayout(sinkCap: nat, sinkLen: nat, pendLen: nat, ringLen: nat, evicted: nat, seen: nat,
                     slots: seq<SpanSlot>)
    returns (layout: seq<Entry>)
    requires ringLen <= seen
    ensures layout == Layout(sinkCap, sinkLen, pendLen, ringLen, evicted, seen, Views(slots))
  {
    hide SlotEntries, Views, SpanPositions;
    var parts: seq<Entry> := [];
    var s := 0;
    assert SlotEntries(Views(slots[..0])) == [] by { NoSlots(slots); }
    while s < |slots|
      invariant 0 <= s <= |slots| && parts == SlotEntries(Views(slots[..s]))
    {
      ViewsPrefix(slots, s);
      if slots[s].count > 0 {
        var pos := JoinPositions(slots[s].spans);
        parts := parts + ([SlotMean(s)] + RepEntries(s, pos));
      }
      s := s + 1;
    }
    assert slots[..s] == slots;
    layout := SinkEntries(sinkLen) + parts + PendingEntries(sinkCap + evicted, pendLen)
      + RingEntries(seen - ringLen, ringLen);
  }

  lemma FreshLayerOk(cfg: Config, mask: Option<seq<bool>>)
    requires cfg.Ok()
    ensures Sound(cfg, Empty(cfg), [], []) && Anchored(cfg, Empty(cfg), [], [])
    ensures Materialized(Empty(cfg).win, Views(Empty(cfg).slots)) == []
    ensures LeadOk(cfg, FreshLeader(cfg), Empty(cfg)) && Flat(cfg, mask, 0, Empty(cfg))
    ensures Told(cfg, mask, FreshLeader(cfg), [], [], []) && Empty(cfg).cursor == 0
  {
    EmptySound(cfg);
    FreshTold(cfg, mask);
    ExactBeforeFirstFold(cfg.dim, cfg.sink, cfg.window, Empty(cfg).win, Views(Empty(cfg).slots), []);
    hide Told;
  }

  lemma ChunksFit(cfg: Config, b: Bank, h: seq<KV>, blocks: seq<Block>)
    requires Sound(cfg, b, h, blocks)
    ensures ChunksOk(cfg.sink, b.chunks) && |Labels(b.chunks)| == b.evicted
  {
  }

  class RoutedSpanLayer {
    const cfg: Config
    const coord: Coord?
    const isLeader: bool
    const breakMask: Option<seq<bool>>
    var sinkTokens: seq<KV>
    var pendTokens: seq<KV>
    var ringTokens: seq<KV>
    var slots: seq<SpanSlot>
    var evicted: nat
    var cumulativeLength: nat
    var assignChunks: seq<Assigned>
    var opCursor: nat
    var keys: seq<KV>
    var lead: Leader
    /** The decisions of a layer without a shared log. */
    var ops: seq<Op>
    ghost var history: seq<KV>
    ghost var blocks: seq<Block>
    ghost var longest: nat
    /** At a deciding layer the length of the tail that each logged decision found. */
    ghost var tails: seq<nat>

    function State(): Bank
      reads this
    {
      Bank(Window(sinkTokens, pendTokens, ringTokens), evicted, cumulativeLength, slots, assignChunks, opCursor)
    }

    predicate Decides() { coord == null || isLeader }

    function Log(): seq<Op>
      reads this, coord
    {
      if coord == null then ops else coord.log
    }

    /** What a layer keeps that has read part of `log`. */
    ghost predicate Follows(log: seq<Op>)
      reads this
    {
      && cfg.Ok() && Sound(cfg, State(), history, blocks) && Anchored(cfg, State(), blocks, log)
      && keys == Materialized(State().win, Views(slots))
    }

    /**
     * Holds before and after every update: slots are exact and made of whole spans, which are those of
     * the decisions read so far; at a deciding layer these are splits at sentence breaks, kept spans
     * are apart, budgets hold and the pending tail is bounded.
     */
    ghost predicate Valid()
      reads this, coord
    {
      && Follows(Log())
      && (Decides() ==> opCursor == |Log()| && Told(cfg, breakMask, lead, history, Log(), tails)
                        && LeadOk(cfg, lead, State()) && Flat(cfg, breakMask, longest, State()))
    }

    constructor (cfg: Config, coord: Coord?, isLeader: bool, breakMask: Option<seq<bool>>)
      requires cfg.Ok() && (coord != null ==> coord.log == [])
      ensures Valid() && history == [] && blocks == [] && longest == 0 && tails == [] && State() == Empty(cfg)
      ensures Log() == []
      ensures this.cfg == cfg && this.coord == coord && this.isLeader == isLeader && this.breakMask == breakMask
    {
      hide Sound, LeadOk, Flat, Told, Anchored, Materialized, Empty, FreshLeader, Views;
      this.cfg, this.coord, this.isLeader, this.breakMask := cfg, coord, isLeader, breakMask;
      var b := Empty(cfg);
      sinkTokens, pendTokens, ringTokens, slots := b.win.sink, b.win.pend, b.win.ring, b.slots;
      evicted, cumulativeLength, assignChunks, opCursor, keys := b.evicted, b.seen, b.chunks, b.cursor, [];
      lead, ops := FreshLeader(cfg), [];
      history, blocks, longest, tails := [], [], 0, [];
      new;
      FreshLayerOk(cfg, breakMask);
    }

    /** The leader's own records. */
    method Record(lead': Leader, ghost h: seq<KV>, ghost bs: seq<Block>, ghost most: nat, ghost lens: seq<nat>)
      modifies this`lead, this`history, this`blocks, this`longest, this`tails
      ensures lead == lead' && history == h && blocks == bs && longest == most && tails == lens
      ensures State() == old(State())
    {
      lead, history, blocks, longest, tails := lead', h, bs, most, lens;
    }

    method Store(b: Bank, newKeys: seq<KV>)
      modifies this`sinkTokens, this`pendTokens, this`ringTokens, this`slots, this`evicted, this`cumulativeLength,
        this`assignChunks, this`opCursor, this`keys
      ensures State() == b && keys == newKeys
    {
      sinkTokens, pendTokens, ringTokens := b.win.sink, b.win.pend, b.win.ring;
      slots, evicted, cumulativeLength, assignChunks, opCursor := b.slots, b.evicted, b.seen, b.chunks, b.cursor;
      keys := newKeys;
    }

    /** Only a deciding layer writes: to the shared log if there is one, else to its own. */
    method Publish(log: seq<Op>)
      requires !Decides() ==> log == Log()
      modifies this`ops, coord
      ensures Log() == log
    {
      if coord == null {
        ops := log;
      } else if isLeader {
        coord.log := log;
      }
    }

    /** `slot_layout`: entry by entry, what the stored keys are. */
    method SlotLayout() returns (layout: seq<Entry>)
      requires Valid()
      ensures |Gone(history, cfg.sink, |Labels(assignChunks)|)| == |Labels(assignChunks)|
      ensures AllMatch(cfg.dim, cfg.sink, layout, keys, history, Labels(assignChunks))
    {
      WindowFits(cfg, State(), history, blocks);
      hide LeadOk, Flat, BlocksOk, SpansSound, Labels;
      layout := BuildLayout(cfg.sink, |sinkTokens|, |pendTokens|, |ringTokens|, evicted, cumulativeLength, slots);
      LayoutIndexes(cfg.dim, cfg.sink, cfg.window, State().win, Views(slots), history, Labels(assignChunks));
    }

    /** The slot an evicted position was routed to; nothing for a token still held elsewhere. */
    method AssignmentOf(pos: nat) returns (slot: Option<nat>)
      requires Valid()
      ensures slot == if cfg.sink <= pos < cfg.sink + evicted then Some(Labels(assignChunks)[pos - cfg.sink]) else None
    {
      hide Sound, LeadOk, Flat, Anchored, Told, Materialized;
      ChunksFit(cfg, State(), history, blocks);
      slot := FindAssignment(cfg.sink, assignChunks, pos);
    }

    /**
     * One chunk. A deciding layer always succeeds; a follower succeeds exactly when the shared log
     * holds the decision it needs; either way the new state is the one `Step` computes from that log.
     */
    method Update(chunk: seq<KV>) returns (r: Outcome<seq<KV>>)
      requires Valid()
      modifies this, coord
      ensures |old(State()).win.sink| <= cfg.sink
      ensures old(Log()) <= Log() && (if Decides() then r.Done? else Log() == old(Log()))
      ensures r.Done? <==> Step(cfg, old(State()), chunk, Log()).Done?
      ensures r.Done? ==> Step(cfg, old(State()), chunk, Log()) == Done(State())
      ensures r.Done? ==> Valid() && history == old(history) + chunk && r.value == old(keys) + chunk
      ensures r.Done? ==> longest == Max(old(longest), |chunk|)
      ensures r.Done? ==>
        tails == if Decides() then NextTails(cfg, Admitted(cfg, old(State()), chunk), old(tails)) else old(tails)
      ensures r.Done? ==> blocks == NextBlocks(cfg, Admitted(cfg, old(State()), chunk), old(blocks), Log())
      ensures Decides() ==> Led(cfg, breakMask, old(lead), Admitted(cfg, old(State()), chunk), old(Log()), Log(), lead)
    {
      hide Sound, LeadOk, Flat, Materialized, Step, NextBlocks, Led, Admit, Anchored, Told, NextTails;
      var returned := keys + chunk;
      var next, log, lead' := Digest(cfg, breakMask, State(), lead, history, blocks, longest, tails, chunk, Log(),
                                     Decides());
      Publish(log);
      if next.Raised? {
        return Raised(next.fault);
      }
      var newKeys := Materialize(next.value.win, next.value.slots);
      Record(lead', history + chunk, NextBlocks(cfg, Admitted(cfg, State(), chunk), blocks, log),
             Max(longest, |chunk|), if Decides() then NextTails(cfg, Admitted(cfg, State(), chunk), tails) else tails);
      Store(next.value, newKeys);
      r := Done(returned);
    }
  }

  // ---- one leader and its followers ---------------------------------------

  /** A cache: the leader first, every layer on the same log, all in the leader's structure. */
  ghost predicate Synced(layers: seq<RoutedSpanLayer>, coord: Coord)
    reads layers, coord, set i | 0 <= i < |layers| && layers[i].coord != null :: layers[i].coord
  {
    && layers != []
    && (forall i, j | 0 <= i < j < |layers| :: layers[i] != layers[j])
    && (forall i | 0 <= i < |layers| ::
          && layers[i].Valid() && layers[i].coord == coord && (layers[i].isLeader <==> i == 0)
          && layers[i].cfg.SameLimits(layers[0].cfg)
          && Agree(layers[0].State(), layers[i].State()))
    && layers[0].opCursor == |coord.log|
  }

  lemma EmptiesAgree(a: Config, b: Config)
    requires a.SameLimits(b)
    ensures Agree(Empty(a), Empty(b))
  {
  }

  /** `build_cache`: fresh layers on one fresh log, the first of them the leader. */
  method BuildCache(cfgs: seq<Config>, breakMask: Option<seq<bool>>)
    returns (layers: seq<RoutedSpanLayer>, coord: Coord)
    requires cfgs != [] && forall i | 0 <= i < |cfgs| :: cfgs[i].Ok() && cfgs[i].SameLimits(cfgs[0])
    ensures fresh(coord) && fresh(layers) && Synced(layers, coord) && |layers| == |cfgs|
    ensures forall i | 0 <= i < |layers| ::
      layers[i].cfg == cfgs[i] && layers[i].history == [] && layers[i].longest == 0
  {
    hide Sound, LeadOk, Flat, Materialized, Agree, Empty, Anchored, Told, RoutedSpanLayer.Follows;
    coord := new Coord();
    layers := [];
    while |layers| < |cfgs|
      invariant |layers| <= |cfgs| && fresh(coord) && coord.log == []
      invariant forall i | 0 <= i < |layers| ::
        && fresh(layers[i]) && layers[i].Valid() && layers[i].coord == coord && (layers[i].isLeader <==> i == 0)
        && layers[i].cfg == cfgs[i] && layers[i].history == [] && layers[i].longest == 0
           && layers[i].State() == Empty(cfgs[i])
      invariant forall i, j | 0 <= i < j < |layers| :: layers[i] != layers[j]
    {
      var layer := new RoutedSpanLayer(cfgs[|layers|], coord, layers == [], breakMask);
      layers := layers + [layer];
    }
    forall i | 0 <= i < |layers| ensures Agree(layers[0].State(), layers[i].State()) {
      EmptiesAgree(layers[0].cfg, layers[i].cfg);
    }
  }

  /** A longer log does not matter to what a layer has already read. */
  lemma CatchUp(layer: RoutedSpanLayer, log: seq<Op>)
    requires layer.Follows(log) && log <= layer.Log()
    ensures layer.Follows(layer.Log())
  {
    hide Sound, Anchored, Materialized;
    AnchoredGrows(layer.cfg, layer.State(), layer.blocks, log, layer.Log());
  }

  /** A follower takes its chunk after the leader: it replays the leader's decision and agrees again. */
  method Follow(layer: RoutedSpanLayer, coord: Coord, chunk: seq<KV>, ghost cfg: Config, ghost before: Bank,
                ghost lead: seq<KV>, ghost after: Bank)
    returns (out: seq<KV>)
    requires layer.Follows(coord.log) && layer.coord == coord && !layer.isLeader && cfg.SameLimits(layer.cfg)
    requires |before.win.sink| <= cfg.sink && Agree(before, layer.State()) && |lead| == |chunk|
    requires Step(cfg, before, lead, coord.log) == Done(after)
    modifies layer, coord
    ensures layer.Follows(coord.log) && coord.log == old(coord.log) && Agree(after, layer.State())
    ensures layer.history == old(layer.history) + chunk && out == old(layer.keys) + chunk
  {
    hide Sound, LeadOk, Materialized, Step, Agree, Flat, Anchored, Told;
    SinkWithin(layer);
    ReplayAgrees(cfg, before, lead, layer.cfg, layer.State(), chunk, coord.log);
    var r := layer.Update(chunk);
    out := r.value;
  }

  lemma SinkWithin(layer: RoutedSpanLayer)
    requires layer.Follows(layer.Log())
    ensures |layer.State().win.sink| <= layer.cfg.sink
  {
    AdmittedSound(layer.cfg, layer.State(), layer.history, layer.blocks, []);
  }

  /** The followers take their chunks one after another, each replaying what the leader has logged. */
  method FollowAll(layers: seq<RoutedSpanLayer>, coord: Coord, chunks: seq<seq<KV>>, first: seq<KV>, ghost before: Bank)
    returns (outs: seq<seq<KV>>)
    requires layers != [] && Fits(chunks, |layers|) && forall i, j | 0 <= i < j < |layers| :: layers[i] != layers[j]
    requires forall i | 0 <= i < |layers| :: layers[i].coord == coord && layers[i].cfg.SameLimits(layers[0].cfg)
    requires forall i | 1 <= i < |layers| ::
      layers[i].Follows(coord.log) && !layers[i].isLeader && Agree(before, layers[i].State())
    requires |before.win.sink| <= layers[0].cfg.sink
    requires Step(layers[0].cfg, before, chunks[0], coord.log) == Done(layers[0].State())
    modifies layers[1..], coord
    ensures coord.log == old(coord.log) && |outs| == |layers| && outs[0] == first
    ensures forall i | 1 <= i < |layers| ::
      && layers[i].Follows(coord.log) && Agree(layers[0].State(), layers[i].State())
      && layers[i].history == old(layers[i].history) + chunks[i] && outs[i] == old(layers[i].keys) + chunks[i]
  {
    hide Sound, LeadOk, Materialized, Step, Agree, Flat, Anchored, Told, RoutedSpanLayer.Follows;
    outs := [first];
    ghost var after := layers[0].State();
    var i := 1;
    while i < |layers|
      invariant 1 <= i <= |layers| && |outs| == i && outs[0] == first
      invariant coord.log == old(coord.log) && layers[0].State() == after
      invariant forall j | 1 <= j < i ::
        && layers[j].Follows(coord.log) && Agree(after, layers[j].State())
        && layers[j].history == old(layers[j].history) + chunks[j]
        && outs[j] == old(layers[j].keys) + chunks[j]
      invariant forall j | i <= j < |layers| ::
        && layers[j].State() == old(layers[j].State()) && layers[j].history == old(layers[j].history)
        && layers[j].keys == old(layers[j].keys) && layers[j].Follows(coord.log)
    {
      var out := Follow(layers[i], coord, chunks[i], layers[0].cfg, before, chunks[0], after);
      outs := outs + [out];
      i := i + 1;
    }
  }

  /** One forward pass, leader first: no follower faults, and the layers agree again. */
  method ForwardChunk(layers: seq<RoutedSpanLayer>, coord: Coord, chunks: seq<seq<KV>>) returns (outs: seq<seq<KV>>)
    requires Synced(layers, coord) && Fits(chunks, |layers|)
    modifies layers, coord
    ensures Synced(layers, coord)
    ensures |outs| == |layers| && old(coord.log) <= coord.log
    ensures layers[0].longest == Max(old(layers[0].longest), |chunks[0]|)
    ensures forall i | 0 <= i < |layers| ::
      && layers[i].history == old(layers[i].history) + chunks[i]
      && outs[i] == old(layers[i].keys) + chunks[i]
  {
    hide Sound, LeadOk, Materialized, Step, Agree, Flat, Anchored, Told, RoutedSpanLayer.Follows, Led, Admit, NextTails,
         NextBlocks;
    ghost var before := layers[0].State();
    var first := layers[0].Update(chunks[0]);
    AgreeSelf(layers[0].State());
    forall i | 1 <= i < |layers| ensures layers[i].Follows(coord.log) {
      CatchUp(layers[i], old(coord.log));
    }
    outs := FollowAll(layers, coord, chunks, first.value, before);
  }

  /** Leader and followers alike hold caches within the flat bound. */
  lemma SyncedIsFlat(layers: seq<RoutedSpanLayer>, coord: Coord, i: nat)
    requires Synced(layers, coord) && i < |layers|
    ensures |layers[i].keys| <= KeysMax(layers[0].cfg, layers[0].longest)
  {
    var top := layers[0];
    assert top.Valid() && layers[i].Valid();
    hide Sound, LeadOk, Flat, Agree, Materialized, KeysMax;
    FlatMemory(top.cfg, top.breakMask, top.longest, top.State(), top.history, top.blocks);
    AgreeSameSize(top.State(), layers[i].State());
  }

  /** After any run, at leader and followers alike: a slot holds one span, or no more than its budget. */
  lemma SyncedWithinBudget(layers: seq<RoutedSpanLayer>, coord: Coord, i: nat, s: nat)
    requires Synced(layers, coord) && i < |layers| && s < |layers[i].slots|
    ensures |layers[i].slots[s].spans| <= 1 || |SpanPositions(layers[i].slots[s].spans)| <= layers[0].cfg.budget
  {
    hide Sound, LeadOk, Materialized, Told, Anchored, SlotBounded, SpansAgree, Quiet, PendMax;
    var top := layers[0];
    assert Agree(top.State(), layers[i].State()) && Flat(top.cfg, top.breakMask, top.longest, top.State());
    AgreeBounded(top.cfg, top.slots[s].spans, layers[i].slots[s].spans);
    WithinOwnBudget(top.cfg, layers[i].slots[s].spans);
  }

  lemma WithinOwnBudget(cfg: Config, spans: seq<Span>)
    requires SlotBounded(cfg, spans)
    ensures |spans| <= 1 || |SpanPositions(spans)| <= cfg.budget
  {
  }

  /**
   * What any run keeps, at leader and followers alike: every kept span is one whole span that some
   * logged decision cut at sentence breaks and sent to this slot, with the layer's own tokens in it.
   */
  lemma KeptSpansWereCut(layers: seq<RoutedSpanLayer>, coord: Coord, i: nat, s: nat, n: nat)
    returns (k: nat, j: nat)
    requires Synced(layers, coord) && i < |layers| && s < |layers[i].slots| && n < |layers[i].slots[s].spans|
    ensures var sp := layers[i].slots[s].spans[n];
            && sp.pos != [] && sp.pos[0] + |sp.pos| <= |layers[i].history|
            && sp.tokens == layers[i].history[sp.pos[0]..sp.pos[0] + |sp.pos|]
            && layers[0].cfg.Ok() && k < |coord.log| == |layers[0].tails|
            && CutFromLog(layers[0].cfg, layers[0].breakMask, coord.log, k, layers[0].tails[k], j,
                          Block(sp.pos[0], sp.pos[0] + |sp.pos|, s))
  {
    hide Synced, Sound, Anchored, CutFromLog, LogBlocks, Materialized, LogCut;
    SyncedLayer(layers, coord, i);
    var top, layer := layers[0], layers[i];
    var sp := layer.slots[s].spans[n];
    KeptSpansAreWhole(layer.cfg, layer.State(), layer.history, layer.blocks, coord.log, s, n);
    assert coord.log[..layer.opCursor] == coord.log;
    k, j := BlockIsLogged(top.cfg, top.breakMask, coord.log, top.tails, Block(sp.pos[0], sp.pos[0] + |sp.pos|, s));
  }

  lemma SyncedLayer(layers: seq<RoutedSpanLayer>, coord: Coord, i: nat)
    requires Synced(layers, coord) && i < |layers|
    ensures layers[i].Follows(coord.log) && layers[i].opCursor == |coord.log|
      && layers[i].cfg.sink == layers[0].cfg.sink
    ensures layers[0].cfg.Ok() && LogCut(layers[0].cfg, layers[0].breakMask, coord.log, layers[0].tails)
  {
    hide Sound, LeadOk, Flat, Materialized, LogCut, MeanOk, Anchored;
    assert Agree(layers[0].State(), layers[i].State());
  }

  // ---- what the running mean covers ---------------------------------------

  /**
   * On every reachable state of a deciding layer: the running mean is that of the tails its decisions
   * found, and it has counted exactly the evicted tokens if and only if every tail ended at a break or
   * held none. Any other tail left tokens that the next decision counts again.
   */
  lemma MeanCountsOnceIff(layer: RoutedSpanLayer)
    requires layer.Valid() && layer.Decides()
    ensures |layer.tails| == |layer.Log()| && layer.lead.gcnt == Total(layer.tails) >= layer.evicted
    ensures IsMean(layer.cfg.dim, layer.lead.gmean, TailTokens(layer.cfg.sink, layer.Log(), layer.tails, layer.history))
    ensures layer.lead.gcnt == layer.evicted
       <==> AllEndAtBreaks(layer.cfg, layer.breakMask, layer.Log(), layer.tails, |layer.Log()|)
  {
    hide Sound, LeadOk, Flat, Materialized, LogCut, AllEndAtBreaks, IsMean;
    var log, n := layer.Log(), |layer.Log()|;
    ToldParts(layer.cfg, layer.breakMask, layer.lead, layer.history, log, layer.tails);
    CountIsRoutedIff(layer.cfg, layer.breakMask, log, layer.tails, n);
    assert log[..n] == log && layer.tails[..n] == layer.tails;
  }

  /**
   * One fold later, when nothing has come in since: what the mean covers is the evicted and the pending
   * tokens, each once, if and only if every tail before the last ended at a break or held none.
   */
  lemma MeanAfterFold(layer: RoutedSpanLayer)
    requires layer.Valid() && layer.Decides() && layer.Log() != [] && |layer.tails| == |layer.Log()|
    requires |layer.pendTokens| == layer.tails[|layer.tails| - 1] - layer.Log()[|layer.Log()| - 1].routed
    ensures TailTokens(layer.cfg.sink, layer.Log(), layer.tails, layer.history)
              == Gone(layer.history, layer.cfg.sink, layer.evicted) + layer.pendTokens
       <==> AllEndAtBreaks(layer.cfg, layer.breakMask, layer.Log(), layer.tails, |layer.Log()| - 1)
    ensures AllEndAtBreaks(layer.cfg, layer.breakMask, layer.Log(), layer.tails, |layer.Log()| - 1) ==>
      IsMean(layer.cfg.dim, layer.lead.gmean,
             Gone(layer.history, layer.cfg.sink, layer.evicted) + layer.pendTokens)
  {
    hide LeadOk, Flat, Materialized, LogCut, AllEndAtBreaks, IsMean, TailTokens;
    var cfg, log, n, h := layer.cfg, layer.Log(), |layer.Log()| - 1, layer.history;
    ToldParts(cfg, layer.breakMask, layer.lead, h, log, layer.tails);
    EachOnceIff(cfg, layer.breakMask, log, layer.tails, h);
    NothingLeftIff(cfg, layer.breakMask, log, layer.tails, n);
    SumsNext(log, layer.tails, n);
    assert log[..n + 1] == log;
    GoneAndPending(cfg, layer.State(), h, layer.blocks, Reached(cfg, log, layer.tails));
  }

  lemma ToldParts(cfg: Config, mask: Option<seq<bool>>, lead: Leader, h: seq<KV>, log: seq<Op>, tails: seq<nat>)
    requires cfg.Ok() && Told(cfg, mask, lead, h, log, tails)
    ensures LogCut(cfg, mask, log, tails) && TailsFit(cfg.sink, log, tails, |h|) && |tails| == |log|
    ensures lead.gcnt == Total(tails) && IsMean(cfg.dim, lead.gmean, TailTokens(cfg.sink, log, tails, h))
  {
  }

  /** The evicted tokens and those pending behind them lie end to end in the history. */
  lemma GoneAndPending(cfg: Config, b: Bank, h: seq<KV>, blocks: seq<Block>, end: nat)
    requires Sound(cfg, b, h, blocks) && cfg.sink + b.evicted <= |h| && end == cfg.sink + b.evicted + |b.win.pend|
    requires end <= |h|
    ensures Gone(h, cfg.sink, b.evicted) + b.win.pend == h[cfg.sink..end]
  {
    hide Sound;
    var from := cfg.sink + b.evicted;
    assert Gone(h, cfg.sink, b.evicted) == h[cfg.sink..from];
    if b.win.pend != [] {
      PendingIsNext(cfg, b, h, blocks);
      assert h[from..][..end - from] == h[from..end];
    }
    assert h[cfg.sink..from] + h[from..end] == h[cfg.sink..end];
  }

  /** A layer without sink and window that routes two tokens at a time. */
  function PairConfig(unit: Vec -> Vec): (cfg: Config)
    ensures cfg.Ok()
  {
    Config(1, 0, 0, 1, 2, 0.5, 0.5, 8, 2, 2, 0.5, unit)
  }

  /** With a break at every second token a tail of two or three tokens routes two. */
  lemma PairSplit(unit: Vec -> Vec, start: nat, total: nat, spans: Bounds, routed: nat)
    requires SplitOk(PairConfig(unit).Split(), None, start, total, spans, routed) && 2 <= total <= 3
    ensures routed == 2
  {
    hide Tiled, SpanOk, EndsAtBreaks;
    var cfg := PairConfig(unit).Split();
    assert IsBreak(cfg, None, start, 1) && !IsBreak(cfg, None, start, 0) && !IsBreak(cfg, None, start, 2);
  }

  /** What an update of such a layer does to its counters once two or three tokens are pending. */
  lemma PairLengths(layer: RoutedSpanLayer, unit: Vec -> Vec)
    requires layer.Valid() && layer.cfg == PairConfig(unit)
    ensures |layer.pendTokens| + layer.evicted == |layer.history| && layer.sinkTokens == [] && layer.ringTokens == []
  {
    hide LeadOk, Flat, Materialized, Told, Anchored, BlocksOk, SpansSound, SlotOk, ChunksOk;
  }

  lemma EvictedIsRouted(layer: RoutedSpanLayer)
    requires layer.Valid() && layer.Decides()
    ensures layer.evicted == LogRouted(layer.Log())
  {
    hide Sound, LeadOk, Flat, Materialized, Told, LogRouted, LogBlocks;
    assert layer.Log()[..layer.opCursor] == layer.Log();
  }

  lemma LedSplits(cfg: Config, mask: Option<seq<bool>>, lead: Leader, a: Bank, log: seq<Op>, log': seq<Op>,
                  lead': Leader)
    requires Led(cfg, mask, lead, a, log, log', lead') && |a.win.pend| >= cfg.routeChunk
    ensures |log'| == |log| + 1 && log <= log' && log'[|log|].RouteSpan? && cfg.Ok()
    ensures var op := log'[|log|];
            SplitOk(cfg.Split(), mask, cfg.sink + a.evicted, |a.win.pend|, op.bounds, op.routed)
  {
    hide SplitOk, Featured, AssignedInTurn, AllRetained, Absorb;
  }

  lemma PairAdmits(unit: Vec -> Vec, b: Bank, chunk: seq<KV>)
    requires b.win.sink == [] && b.win.ring == []
    ensures |Admitted(PairConfig(unit), b, chunk).win.pend| == |b.win.pend| + |chunk|
    ensures Admitted(PairConfig(unit), b, chunk).evicted == b.evicted
  {
  }

  method PairUpdate(layer: RoutedSpanLayer, unit: Vec -> Vec, chunk: seq<KV>)
    requires layer.Valid() && layer.coord == null && layer.cfg == PairConfig(unit) && layer.breakMask == None
    requires 2 <= |layer.pendTokens| + |chunk| <= 3
    modifies layer
    ensures layer.Valid() && layer.history == old(layer.history) + chunk
    ensures layer.tails == old(layer.tails) + [old(|layer.pendTokens|) + |chunk|]
    ensures layer.evicted == old(layer.evicted) + 2
    ensures |layer.Log()| == old(|layer.Log()|) + 1 && old(layer.Log()) <= layer.Log()
  {
    hide Sound, LeadOk, Flat, Materialized, Told, Step, Anchored, NextBlocks, Admit, Led, SplitOk;
    PairLengths(layer, unit);
    EvictedIsRouted(layer);
    PairAdmits(unit, layer.State(), chunk);
    ghost var a := Admitted(layer.cfg, layer.State(), chunk);
    ghost var before, lead := layer.Log(), layer.lead;
    var r := layer.Update(chunk);
    LedSplits(layer.cfg, None, lead, a, before, layer.Log(), layer.lead);
    PairFold(layer, unit, before, a);
  }

  lemma PairFold(layer: RoutedSpanLayer, unit: Vec -> Vec, before: seq<Op>, a: Bank)
    requires layer.Valid() && layer.coord == null && layer.cfg == PairConfig(unit) && 2 <= |a.win.pend| <= 3
    requires |layer.Log()| == |before| + 1 && before <= layer.Log() && a.evicted == LogRouted(before)
    requires layer.Log()[|before|].RouteSpan?
    requires var op := layer.Log()[|before|];
             SplitOk(layer.cfg.Split(), None, a.evicted, |a.win.pend|, op.bounds, op.routed)
    ensures layer.evicted == a.evicted + 2
  {
    hide Sound, LeadOk, Flat, Materialized, Told, SplitOk, Anchored;
    EvictedIsRouted(layer);
    var log := layer.Log();
    PairSplit(unit, a.evicted, |a.win.pend|, log[|before|].bounds, log[|before|].routed);
    assert log[..|log|] == log && log[..|before|] == before;
  }

  /**
   * A run in which the mean goes wrong: of the tokens 0, 0, 1 the third is left pending, then 0 comes in.
   * Four tokens are evicted and none is pending, but five have been counted, and the mean is not theirs.
   */
  method TailCountedTwice(unit: Vec -> Vec) returns (layer: RoutedSpanLayer)
    ensures fresh(layer) && layer.Valid() && layer.Decides() && layer.cfg == PairConfig(unit)
    ensures layer.history == [Scalar(0.0), Scalar(0.0), Scalar(1.0), Scalar(0.0)]
    ensures layer.evicted == 4 && layer.pendTokens == [] && layer.lead.gcnt == 5
    ensures !IsMean(1, layer.lead.gmean, layer.history)
  {
    hide Sound, LeadOk, Flat, Materialized, Told, Anchored, IsMean, AllEndAtBreaks, TailTokens, LogRouted, Total,
         Scalar;
    layer := new RoutedSpanLayer(PairConfig(unit), null, true, None);
    ghost var first, second := [Scalar(0.0), Scalar(0.0), Scalar(1.0)], [Scalar(0.0)];
    PairUpdate(layer, unit, [Scalar(0.0), Scalar(0.0), Scalar(1.0)]);
    PairLengths(layer, unit);
    EvictedIsRouted(layer);
    ghost var log := layer.Log();
    PairUpdate(layer, unit, [Scalar(0.0)]);
    PairLengths(layer, unit);
    MeanCountsOnceIff(layer);
    assert layer.history == first + second && layer.tails == [3, 2];
    TwoTails(layer.Log(), log, layer.history);
    NotTheMean(layer.lead.gmean);
  }

  lemma KeysMaxMonotone(cfg: Config, a: nat, b: nat)
    requires a <= b
    ensures KeysMax(cfg, a) <= KeysMax(cfg, b)
  {
  }

  /**
   * Any number of forward passes with chunks of at most `most` tokens: the layers stay in step, each
   * has seen its own stream, and every cache stays within a bound that the number of passes does not enter.
   */
  method ForwardAll(layers: seq<RoutedSpanLayer>, coord: Coord, rounds: seq<seq<seq<KV>>>, ghost most: nat)
    requires Synced(layers, coord) && |layers| > 0 && layers[0].longest <= most
    requires forall k | 0 <= k < |rounds| :: Fits(rounds[k], |layers|) && |rounds[k][0]| <= most
    modifies layers, coord
    ensures Synced(layers, coord)
    ensures forall i | 0 <= i < |layers| ::
      && layers[i].history == old(layers[i].history) + Column(rounds, i)
      && |layers[i].keys| <= KeysMax(layers[0].cfg, most)
  {
    hide Synced, KeysMax;
    assert Column<KV>(rounds[..0], 0) == [];
    var k := 0;
    while k < |rounds|
      invariant 0 <= k <= |rounds| && Synced(layers, coord) && |layers| > 0 && layers[0].longest <= most
      invariant forall i | 0 <= i < |layers| :: layers[i].history == old(layers[i].history) + Column(rounds[..k], i)
    {
      assert Fits(rounds[k], |layers|);
      assert rounds[..k + 1][..k] == rounds[..k];
      var _ := ForwardChunk(layers, coord, rounds[k]);
      forall i | 0 <= i < |layers|
        ensures layers[i].history == old(layers[i].history) + Column(rounds[..k + 1], i)
      {
        Associative(old(layers[i].history), Column(rounds[..k], i), rounds[k][i]);
      }
      k := k + 1;
    }
    assert rounds[..k] == rounds;
    AllFlat(layers, coord, most);
  }

  lemma AllFlat(layers: seq<RoutedSpanLayer>, coord: Coord, most: nat)
    requires Synced(layers, coord) && |layers| > 0 && layers[0].longest <= most
    ensures forall i | 0 <= i < |layers| :: |layers[i].keys| <= KeysMax(layers[0].cfg, most)
  {
    hide Synced, KeysMax;
    KeysMaxMonotone(layers[0].cfg, layers[0].longest, most);
    forall i | 0 <= i < |layers| ensures |layers[i].keys| <= KeysMax(layers[0].cfg, most) {
      SyncedIsFlat(layers, coord, i);
    }
  }
}
