/** RoutedSpanLayer as a function of its state, the incoming chunk and the op log. */
module RoutedSpanSpec {
  import opened Lists
  import opened Tokens
  import opened Eviction
  import opened OpLog
  import opened Routed
  import opened SpanSplit

  datatype Config = Config(dim: nat, sink: nat, window: nat, mSlots: nat, routeChunk: nat, momentum: real,
                           novelty: real, budget: nat, maxSpan: nat, fallback: nat, dupFloor: real, unit: Vec -> Vec)
  {
    predicate Ok() { mSlots >= 1 && routeChunk >= 1 && maxSpan >= 1 && fallback >= 1 && dupFloor > -1.0 }

    function Split(): SplitConfig { SplitConfig(maxSpan, fallback) }

    predicate SameLimits(o: Config) {
      sink == o.sink && window == o.window && mSlots == o.mSlots && routeChunk == o.routeChunk
      && budget == o.budget && maxSpan == o.maxSpan && fallback == o.fallback
    }
  }

  /** A kept span: its tokens and their absolute positions. */
  datatype Span = Span(tokens: seq<KV>, pos: seq<nat>)

  datatype SpanSlot = SpanSlot(count: nat, mean: KV, spans: seq<Span>)

  datatype Bank = Bank(win: Window<KV>, evicted: nat, seen: nat, slots: seq<SpanSlot>, chunks: seq<Assigned>,
                       cursor: nat)

  function Empty(cfg: Config): Bank {
    Bank(Window([], [], []), 0, 0, seq(cfg.mSlots, _ => SpanSlot(0, Zero(cfg.dim), [])), [], 0)
  }

  function SpanTokens(spans: seq<Span>): seq<KV> {
    if spans == [] then [] else SpanTokens(spans[..|spans| - 1]) + spans[|spans| - 1].tokens
  }

  function SpanPositions(spans: seq<Span>): seq<nat> {
    if spans == [] then [] else SpanPositions(spans[..|spans| - 1]) + spans[|spans| - 1].pos
  }

  /** The slot as attention sees it: the tokens of its spans one after another. */
  function View(slot: SpanSlot): Slot {
    Slot(slot.count, slot.mean, SpanTokens(slot.spans), SpanPositions(slot.spans))
  }

  function Views(slots: seq<SpanSlot>): (r: seq<Slot>)
    ensures |r| == |slots| && forall s | 0 <= s < |slots| :: r[s] == View(slots[s])
  {
    seq(|slots|, s requires 0 <= s < |slots| => View(slots[s]))
  }

  function Width(b: (nat, nat)): nat { if b.0 < b.1 then b.1 - b.0 else 0 }

  /** One label per routed token: the slot of its span. */
  function TokenLabels(bounds: Bounds, assign: seq<nat>): seq<nat>
    requires |assign| == |bounds|
  {
    if bounds == [] then []
    else
      var n := |bounds| - 1;
      TokenLabels(bounds[..n], assign[..n]) + seq(Width(bounds[n]), _ => assign[n])
  }

  predicate InRange(bounds: Bounds, n: nat) {
    forall j | 0 <= j < |bounds| :: bounds[j].0 < bounds[j].1 <= n
  }

  /** The spans of a chunk as they enter a slot. */
  function Cut(cut: seq<KV>, start: nat, bounds: Bounds): (r: seq<Span>)
    requires InRange(bounds, |cut|)
    ensures |r| == |bounds|
    ensures forall j | 0 <= j < |bounds| ::
              r[j] == Span(cut[bounds[j].0..bounds[j].1], Range(start + bounds[j].0, bounds[j].1 - bounds[j].0))
  {
    seq(|bounds|, j requires 0 <= j < |bounds| =>
      Span(cut[bounds[j].0..bounds[j].1], Range(start + bounds[j].0, bounds[j].1 - bounds[j].0)))
  }

  /** The running mean after span upon span joined `n` tokens with mean `m`. */
  function AbsorbSpans(dim: nat, m: KV, n: nat, spans: seq<Span>): KV
    requires forall i | 0 <= i < |spans| :: spans[i].tokens != []
  {
    if spans == [] then m
    else
      var k := |spans| - 1;
      Absorb(dim, AbsorbSpans(dim, m, n, spans[..k]), n + |SpanTokens(spans[..k])|, spans[k].tokens)
  }

  predicate SpanFits(cfg: Config, b: Bank, bounds: Bounds, assign: seq<nat>, keeps: map<nat, seq<nat>>, routed: nat) {
    && Tiled(bounds, routed) && InRange(bounds, |b.win.pend|) && 0 < routed <= |b.win.pend|
    && |assign| == |bounds| && Below(assign, cfg.mSlots) && |b.slots| == cfg.mSlots
    && keeps.Keys == (set s | s in assign)
    && forall s | 0 <= s < cfg.mSlots && s in keeps ::
         KeepFits(b.slots[s], |Pick<(nat, nat)>(bounds, assign, s)|, keeps[s])
  }

  predicate KeepFits(slot: SpanSlot, added: nat, keep: seq<nat>) {
    keep != [] && Increasing(keep) && Below(keep, |slot.spans| + added)
  }

  lemma {:induction false} PickInRange(bounds: Bounds, assign: seq<nat>, s: nat, n: nat)
    requires |assign| == |bounds| && InRange(bounds, n)
    ensures InRange(Pick<(nat, nat)>(bounds, assign, s), n)
  {
    if bounds == [] {
    } else {
      PickInRange(bounds[..|bounds| - 1], assign[..|bounds| - 1], s, n);
    }
  }

  /** The spans of the chunk that were routed to slot `s`. */
  function NewSpans(cut: seq<KV>, start: nat, bounds: Bounds, assign: seq<nat>, s: nat): (r: seq<Span>)
    requires |assign| == |bounds| && InRange(bounds, |cut|)
    ensures |r| == |Pick<(nat, nat)>(bounds, assign, s)|
    ensures forall i | 0 <= i < |r| :: r[i].tokens != []
  {
    PickInRange(bounds, assign, s, |cut|);
    Cut(cut, start, Pick<(nat, nat)>(bounds, assign, s))
  }

  function SlotStep(cfg: Config, slot: SpanSlot, cut: seq<KV>, start: nat, bounds: Bounds, assign: seq<nat>, s: nat,
                    keep: seq<nat>): SpanSlot
    requires |assign| == |bounds| && InRange(bounds, |cut|)
      && KeepFits(slot, |Pick<(nat, nat)>(bounds, assign, s)|, keep)
  {
    var added := NewSpans(cut, start, bounds, assign, s);
    SpanSlot(slot.count + |SpanTokens(added)|, AbsorbSpans(cfg.dim, slot.mean, slot.count, added),
             Select(slot.spans + added, keep))
  }

  ghost function RoutedSlot(cfg: Config, b: Bank, bounds: Bounds, assign: seq<nat>, keeps: map<nat, seq<nat>>,
                            routed: nat, s: nat): SpanSlot
    requires SpanFits(cfg, b, bounds, assign, keeps, routed) && s < cfg.mSlots
  {
    if s in keeps then SlotStep(cfg, b.slots[s], b.win.pend, cfg.sink + b.evicted, bounds, assign, s, keeps[s])
    else b.slots[s]
  }

  ghost function RouteFold(cfg: Config, b: Bank, bounds: Bounds, assign: seq<nat>, keeps: map<nat, seq<nat>>,
                           routed: nat): Bank
    requires SpanFits(cfg, b, bounds, assign, keeps, routed)
  {
    b.(win := b.win.(pend := b.win.pend[routed..]), evicted := b.evicted + routed,
       slots := seq(cfg.mSlots, s requires 0 <= s < cfg.mSlots => RoutedSlot(cfg, b, bounds, assign, keeps, routed, s)),
       chunks := b.chunks + [Assigned(cfg.sink + b.evicted, TokenLabels(bounds, assign))], cursor := b.cursor + 1)
  }

  ghost function Admitted(cfg: Config, b: Bank, chunk: seq<KV>): Bank
    requires |b.win.sink| <= cfg.sink
  {
    b.(win := Admit(cfg.sink, cfg.window, b.win, chunk), seen := b.seen + |chunk|)
  }

  ghost function FoldIfFull(cfg: Config, a: Bank, log: seq<Op>): Outcome<Bank> {
    if |a.win.pend| < cfg.routeChunk then Done(a)
    else if a.cursor >= |log| then Raised(LogExhausted)
    else if !log[a.cursor].RouteSpan? then Raised(Desync)
    else
      var op := log[a.cursor];
      if !SpanFits(cfg, a, op.bounds, op.assign, op.keeps, op.routed) then Raised(Misfit)
      else Done(RouteFold(cfg, a, op.bounds, op.assign, op.keeps, op.routed))
  }

  /** One update: admit the chunk, then route pending spans once if they fill a routing chunk. */
  ghost function Step(cfg: Config, b: Bank, chunk: seq<KV>, log: seq<Op>): Outcome<Bank>
    requires |b.win.sink| <= cfg.sink
  {
    FoldIfFull(cfg, Admitted(cfg, b, chunk), log)
  }

  // ---- what every reachable state satisfies -------------------------------

  /** One routed span: absolute positions [start, end) went to `slot` as a unit. */
  datatype Block = Block(start: nat, end: nat, slot: nat)

  function Blocks(start: nat, bounds: Bounds, assign: seq<nat>): (r: seq<Block>)
    requires |assign| == |bounds|
    ensures |r| == |bounds|
    ensures forall j | 0 <= j < |r| :: r[j] == Block(start + bounds[j].0, start + bounds[j].1, assign[j])
  {
    seq(|bounds|, j requires 0 <= j < |bounds| => Block(start + bounds[j].0, start + bounds[j].1, assign[j]))
  }

  ghost predicate Uniform(route: seq<nat>, lo: int, hi: int, slot: nat) {
    0 <= lo <= hi <= |route| && forall p | lo <= p < hi :: route[p] == slot
  }

  /** All spans ever routed tile the evicted positions, and every token carries the slot of its span. */
  ghost predicate BlocksOk(sink: nat, blocks: seq<Block>, route: seq<nat>) {
    && (blocks == [] ==> route == [])
    && (blocks != [] ==> blocks[0].start == sink && blocks[|blocks| - 1].end == sink + |route|)
    && (forall j | 0 <= j < |blocks| ::
          blocks[j].start < blocks[j].end && Uniform(route, blocks[j].start - sink, blocks[j].end - sink,
                                                     blocks[j].slot))
    && forall j | 0 <= j < |blocks| - 1 :: blocks[j].end == blocks[j + 1].start
  }

  /** A kept span is one whole routed span of this slot, with the tokens it had in the history. */
  ghost predicate SpanSound(sp: Span, s: nat, h: seq<KV>, blocks: seq<Block>) {
    && |sp.tokens| == |sp.pos| > 0
    && sp.pos == Range(sp.pos[0], |sp.pos|)
    && sp.pos[0] + |sp.pos| <= |h| && sp.tokens == h[sp.pos[0]..sp.pos[0] + |sp.pos|]
    && Block(sp.pos[0], sp.pos[0] + |sp.pos|, s) in blocks
  }

  ghost predicate InOrder(spans: seq<Span>) {
    && (forall i | 0 <= i < |spans| :: spans[i].pos != [])
    && forall i, j | 0 <= i < j < |spans| :: spans[i].pos[0] + |spans[i].pos| <= spans[j].pos[0]
  }

  ghost predicate SpansSound(slot: SpanSlot, s: nat, h: seq<KV>, blocks: seq<Block>) {
    && (forall i | 0 <= i < |slot.spans| :: SpanSound(slot.spans[i], s, h, blocks))
    && InOrder(slot.spans)
    && (slot.count > 0 <==> slot.spans != [])
  }

  ghost predicate Sound(cfg: Config, b: Bank, h: seq<KV>, blocks: seq<Block>) {
    && BankOk(cfg.dim, cfg.sink, cfg.window, b.win, Views(b.slots), h, Labels(b.chunks))
    && b.evicted == |Labels(b.chunks)| && b.seen == |h| && |b.slots| == cfg.mSlots
    && ChunksOk(cfg.sink, b.chunks)
    && BlocksOk(cfg.sink, blocks, Labels(b.chunks))
    && forall s | 0 <= s < |b.slots| :: SpansSound(b.slots[s], s, h, blocks)
  }

  lemma EmptySound(cfg: Config)
    ensures Sound(cfg, Empty(cfg), [], [])
  {
    var slot := SpanSlot(0, Zero(cfg.dim), []);
    forall s | 0 <= s < cfg.mSlots
      ensures SlotOk(cfg.dim, cfg.sink, View(slot), s, [], []) && SpansSound(slot, s, [], [])
    {
      ZeroIsMean(cfg.dim);
    }
    hide SlotOk, SpansSound;
  }

  // ---- the tokens of the new spans of a slot ------------------------------

  lemma {:induction false} LabelCount(bounds: Bounds, assign: seq<nat>, n: nat)
    requires |assign| == |bounds| && Tiled(bounds, n)
    ensures |TokenLabels(bounds, assign)| == n
  {
    if bounds == [] {
    } else {
      var k := |bounds| - 1;
      TiledPrefix(bounds, n);
      LabelCount(bounds[..k], assign[..k], bounds[k].0);
    }
  }

  lemma TiledPrefix(bounds: Bounds, n: nat)
    requires Tiled(bounds, n) && bounds != []
    ensures Tiled(bounds[..|bounds| - 1], bounds[|bounds| - 1].0)
    ensures bounds[|bounds| - 1].0 < bounds[|bounds| - 1].1 == n
  {
  }

  lemma PickRun(cut: seq<KV>, labels: seq<nat>, a: nat, n: nat, tag: nat, s: nat)
    requires |labels| == a <= n <= |cut|
    ensures |labels + seq(n - a, _ => tag)| == n
    ensures Pick(cut[..n], labels + seq(n - a, _ => tag), s)
         == Pick(cut[..a], labels, s) + if tag == s then cut[a..n] else []
  {
    var tail := seq(n - a, _ => tag);
    assert cut[..n] == cut[..a] + cut[a..n];
    hide Pick;
    PickConcat(cut[..a], labels, cut[a..n], tail, s);
    PickUniform(cut[a..n], tail, tag, s);
  }

  lemma TokensSnoc(spans: seq<Span>, last: Span)
    ensures SpanTokens(spans + [last]) == SpanTokens(spans) + last.tokens
    ensures SpanPositions(spans + [last]) == SpanPositions(spans) + last.pos
  {
    assert (spans + [last])[..|spans|] == spans;
  }

  /** Taken together, the new spans of slot `s` are the tokens labelled `s`, in order. */
  lemma {:induction false} NewSpansArePicked(cut: seq<KV>, start: nat, bounds: Bounds, assign: seq<nat>, s: nat, n: nat)
    requires |assign| == |bounds| && Tiled(bounds, n) && n <= |cut| && InRange(bounds, |cut|)
    ensures |TokenLabels(bounds, assign)| == n
    ensures SpanTokens(NewSpans(cut, start, bounds, assign, s)) == Pick(cut[..n], TokenLabels(bounds, assign), s)
  {
    LabelCount(bounds, assign, n);
    if bounds == [] {
      assert NewSpans(cut, start, bounds, assign, s) == [];
    } else {
      var k := |bounds| - 1;
      var a := bounds[k].0;
      TiledPrefix(bounds, n);
      NewSpansSnoc(cut, start, bounds, assign, s);
      NewSpansArePicked(cut, start, bounds[..k], assign[..k], s, a);
      hide Tiled, InRange, NewSpans, Pick, SpanTokens;
      PickRun(cut, TokenLabels(bounds[..k], assign[..k]), a, n, assign[k], s);
      var before := NewSpans(cut, start, bounds[..k], assign[..k], s);
      if assign[k] == s {
        TokensSnoc(before, Span(cut[a..n], Range(start + a, n - a)));
      } else {
        assert NewSpans(cut, start, bounds, assign, s) == before;
      }
    }
  }

  lemma NewSpansSnoc(cut: seq<KV>, start: nat, bounds: Bounds, assign: seq<nat>, s: nat)
    requires |assign| == |bounds| && InRange(bounds, |cut|) && bounds != []
    ensures var k := |bounds| - 1;
            InRange(bounds[..k], |cut|)
            && NewSpans(cut, start, bounds, assign, s) == NewSpans(cut, start, bounds[..k], assign[..k], s)
                 + if assign[k] == s
                   then [Span(cut[bounds[k].0..bounds[k].1], Range(start + bounds[k].0, bounds[k].1 - bounds[k].0))]
                   else []
  {
  }

  lemma NewSpansCount(cut: seq<KV>, start: nat, bounds: Bounds, assign: seq<nat>, s: nat)
    requires |assign| == |bounds| && InRange(bounds, |cut|)
    ensures |NewSpans(cut, start, bounds, assign, s)| == |Pick<(nat, nat)>(bounds, assign, s)|
  {
  }

  lemma {:induction false} AbsorbSpansIsMean(dim: nat, m: KV, base: seq<KV>, spans: seq<Span>)
    requires IsMean(dim, m, base) && forall i | 0 <= i < |spans| :: spans[i].tokens != []
    ensures IsMean(dim, AbsorbSpans(dim, m, |base|, spans), base + SpanTokens(spans))
  {
    hide IsMean, Absorb;
    if spans == [] {
      assert base + [] == base;
    } else {
      var k := |spans| - 1;
      AbsorbSpansIsMean(dim, m, base, spans[..k]);
      var older := base + SpanTokens(spans[..k]);
      AbsorbIsMean(dim, AbsorbSpans(dim, m, |base|, spans[..k]), older, spans[k].tokens);
      Associative(base, SpanTokens(spans[..k]), spans[k].tokens);
    }
  }

  // ---- kept spans ---------------------------------------------------------

  lemma SpansSurvive(slot: SpanSlot, s: nat, h: seq<KV>, blocks: seq<Block>, chunk: seq<KV>, more: seq<Block>)
    requires SpansSound(slot, s, h, blocks)
    ensures SpansSound(slot, s, h + chunk, blocks + more)
  {
    forall i | 0 <= i < |slot.spans| ensures SpanSound(slot.spans[i], s, h + chunk, blocks + more) {
      var sp := slot.spans[i];
      assert SpanSound(sp, s, h, blocks);
      assert (h + chunk)[sp.pos[0]..sp.pos[0] + |sp.pos|] == h[sp.pos[0]..sp.pos[0] + |sp.pos|];
    }
  }

  lemma AdmittedSound(cfg: Config, b: Bank, h: seq<KV>, blocks: seq<Block>, chunk: seq<KV>)
    requires Sound(cfg, b, h, blocks)
    ensures |b.win.sink| <= cfg.sink
    ensures Sound(cfg, Admitted(cfg, b, chunk), h + chunk, blocks)
  {
    hide Admit, Holds, SpansSound, SlotOk, BlocksOk, ChunksOk, Labels;
    var route := Labels(b.chunks);
    AdmitHolds(cfg.sink, cfg.window, b.win, |route|, h, chunk);
    HeldSink(cfg.sink, cfg.window, b.win, |route|, h);
    forall s | 0 <= s < |b.slots| ensures SlotOk(cfg.dim, cfg.sink, View(b.slots[s]), s, h + chunk, route) {
      assert SlotOk(cfg.dim, cfg.sink, Views(b.slots)[s], s, h, route);
      SlotSurvives(cfg.dim, cfg.sink, View(b.slots[s]), s, h, route, chunk);
    }
    forall s | 0 <= s < |b.slots| ensures SpansSound(b.slots[s], s, h + chunk, blocks) {
      SpansSurvive(b.slots[s], s, h, blocks, chunk, []);
      assert blocks + [] == blocks;
    }
  }

  lemma HeldSink<T>(sink: nat, window: nat, w: Window<T>, gone: nat, h: seq<T>)
    requires Holds(sink, window, w, gone, h)
    ensures |w.sink| <= sink
  {
  }

  /** The block of a kept span says where its positions lie and which labels they carry. */
  lemma SpanPlace(sink: nat, sp: Span, s: nat, h: seq<KV>, blocks: seq<Block>, route: seq<nat>)
    requires SpanSound(sp, s, h, blocks) && BlocksOk(sink, blocks, route)
    ensures sink <= sp.pos[0] && sp.pos[0] + |sp.pos| <= sink + |route|
    ensures forall i | 0 <= i < |sp.pos| ::
              sp.pos[i] == sp.pos[0] + i && sp.tokens[i] == h[sp.pos[i]] && route[sp.pos[i] - sink] == s
  {
    var j :| 0 <= j < |blocks| && blocks[j] == Block(sp.pos[0], sp.pos[0] + |sp.pos|, s);
    assert Uniform(route, blocks[j].start - sink, blocks[j].end - sink, s);
  }

  /** Increasing routed positions of slot `s`, each with its own token. */
  ghost predicate Laid(sink: nat, ts: seq<KV>, ps: seq<nat>, s: nat, h: seq<KV>, route: seq<nat>) {
    && |ts| == |ps| && Increasing(ps)
    && forall i | 0 <= i < |ps| ::
         sink <= ps[i] < sink + |route| && ps[i] < |h| && route[ps[i] - sink] == s && ts[i] == h[ps[i]]
  }

  /** Laid end to end, kept spans list distinct positions in increasing order, each with its own token. */
  lemma {:induction false} SpansAreReps(sink: nat, spans: seq<Span>, s: nat, h: seq<KV>, blocks: seq<Block>,
                                        route: seq<nat>)
    requires (forall i | 0 <= i < |spans| :: SpanSound(spans[i], s, h, blocks)) && InOrder(spans)
    requires BlocksOk(sink, blocks, route)
    ensures spans != [] ==> spans[|spans| - 1].pos != []
    ensures var ts, ps := SpanTokens(spans), SpanPositions(spans);
            && Laid(sink, ts, ps, s, h, route)
            && (spans != [] ==> ps != [] && ps[|ps| - 1] < spans[|spans| - 1].pos[0] + |spans[|spans| - 1].pos|)
  {
    hide BlocksOk, InOrder, SpanSound;
    if spans == [] {
    } else {
      var k := |spans| - 1;
      var before, last := spans[..k], spans[k];
      InOrderPrefix(spans);
      SpansAreReps(sink, before, s, h, blocks, route);
      SpanPlace(sink, last, s, h, blocks, route);
      SpanSize(last, s, h, blocks);
      hide Laid;
      AppendReps(sink, SpanTokens(before), SpanPositions(before), last, s, h, route);
    }
  }

  lemma InOrderPrefix(spans: seq<Span>)
    requires InOrder(spans) && spans != []
    ensures var k := |spans| - 1;
            InOrder(spans[..k]) && spans[k].pos != []
            && (k > 0 ==> spans[k - 1].pos != [] && spans[k - 1].pos[0] + |spans[k - 1].pos| <= spans[k].pos[0])
  {
  }

  lemma SpanSize(sp: Span, s: nat, h: seq<KV>, blocks: seq<Block>)
    requires SpanSound(sp, s, h, blocks)
    ensures |sp.tokens| == |sp.pos| > 0 && sp.pos[0] + |sp.pos| <= |h|
  {
  }

  lemma AppendReps(sink: nat, ts: seq<KV>, ps: seq<nat>, last: Span, s: nat, h: seq<KV>, route: seq<nat>)
    requires Laid(sink, ts, ps, s, h, route) && |last.tokens| == |last.pos| > 0
    requires ps != [] ==> ps[|ps| - 1] < last.pos[0]
    requires sink <= last.pos[0] && last.pos[0] + |last.pos| <= sink + |route| && last.pos[0] + |last.pos| <= |h|
    requires forall i | 0 <= i < |last.pos| ::
               last.pos[i] == last.pos[0] + i && last.tokens[i] == h[last.pos[i]] && route[last.pos[i] - sink] == s
    ensures Laid(sink, ts + last.tokens, ps + last.pos, s, h, route)
    ensures (ps + last.pos)[|ps + last.pos| - 1] == last.pos[0] + |last.pos| - 1
  {
    var qs := ps + last.pos;
    forall i, j | 0 <= i < j < |qs| ensures qs[i] < qs[j] {
      if i < |ps| <= j {
        assert ps[i] <= ps[|ps| - 1] < last.pos[0] <= last.pos[j - |ps|];
      }
    }
    forall i | 0 <= i < |qs|
      ensures var p := qs[i];
              sink <= p < sink + |route| && p < |h| && route[p - sink] == s && (ts + last.tokens)[i] == h[p]
    {
      if i >= |ps| {
        assert qs[i] == last.pos[i - |ps|] && (ts + last.tokens)[i] == last.tokens[i - |ps|];
      }
    }
  }

  lemma ViewRepsOk(sink: nat, slot: SpanSlot, s: nat, h: seq<KV>, blocks: seq<Block>, route: seq<nat>)
    requires SpansSound(slot, s, h, blocks) && BlocksOk(sink, blocks, route)
    ensures RepsOk(sink, View(slot), s, h, route)
  {
    hide BlocksOk, InOrder, SpanSound, SpanTokens, SpanPositions;
    SpansAreReps(sink, slot.spans, s, h, blocks, route);
  }

  // ---- a fold ---------------------------------------------------------------

  lemma {:induction false} LabelAt(bounds: Bounds, assign: seq<nat>, n: nat, j: nat)
    requires |assign| == |bounds| && Tiled(bounds, n) && j < |bounds|
    ensures |TokenLabels(bounds, assign)| == n && bounds[j].1 <= n
    ensures Uniform(TokenLabels(bounds, assign), bounds[j].0, bounds[j].1, assign[j])
  {
    var k := |bounds| - 1;
    LabelCount(bounds, assign, n);
    TiledPrefix(bounds, n);
    LabelCount(bounds[..k], assign[..k], bounds[k].0);
    if j < k {
      LabelAt(bounds[..k], assign[..k], bounds[k].0, j);
    }
  }

  lemma {:induction false} LabelsBelow(bounds: Bounds, assign: seq<nat>, m: nat)
    requires |assign| == |bounds| && Below(assign, m)
    ensures Below(TokenLabels(bounds, assign), m)
  {
    if bounds == [] {
    } else {
      LabelsBelow(bounds[..|bounds| - 1], assign[..|bounds| - 1], m);
    }
  }

  lemma UniformAfter(route: seq<nat>, labels: seq<nat>, lo: int, hi: int, slot: nat)
    ensures Uniform(route, lo, hi, slot) ==> Uniform(route + labels, lo, hi, slot)
    ensures Uniform(labels, lo, hi, slot) ==> Uniform(route + labels, |route| + lo, |route| + hi, slot)
  {
    if Uniform(labels, lo, hi, slot) {
      forall p | |route| + lo <= p < |route| + hi ensures (route + labels)[p] == slot {
        assert (route + labels)[p] == labels[p - |route|];
      }
    }
  }

  lemma BlocksGrow(sink: nat, blocks: seq<Block>, route: seq<nat>, bounds: Bounds, assign: seq<nat>, n: nat)
    requires BlocksOk(sink, blocks, route) && |assign| == |bounds| && Tiled(bounds, n) && n > 0
    ensures |TokenLabels(bounds, assign)| == n
    ensures BlocksOk(sink, blocks + Blocks(sink + |route|, bounds, assign), route + TokenLabels(bounds, assign))
  {
    hide Uniform, TokenLabels, Tiled;
    var labels, added := TokenLabels(bounds, assign), Blocks(sink + |route|, bounds, assign);
    var more := blocks + added;
    LabelCount(bounds, assign, n);
    forall j | 0 <= j < |more|
      ensures more[j].start < more[j].end
      ensures Uniform(route + labels, more[j].start - sink, more[j].end - sink, more[j].slot)
    {
      if j < |blocks| {
        assert more[j] == blocks[j];
        UniformAfter(route, labels, more[j].start - sink, more[j].end - sink, more[j].slot);
      } else {
        var i := j - |blocks|;
        assert more[j] == added[i];
        LabelAt(bounds, assign, n, i);
        NotEmpty(bounds, n, i);
        UniformAfter(route, labels, bounds[i].0, bounds[i].1, assign[i]);
      }
    }
    BlocksMeet(sink, blocks, route, bounds, assign, n);
  }

  lemma NotEmpty(bounds: Bounds, n: nat, i: nat)
    requires Tiled(bounds, n) && i < |bounds|
    ensures bounds[i].0 < bounds[i].1
  {
  }

  lemma BlocksMeet(sink: nat, blocks: seq<Block>, route: seq<nat>, bounds: Bounds, assign: seq<nat>, n: nat)
    requires BlocksOk(sink, blocks, route) && |assign| == |bounds| && Tiled(bounds, n) && n > 0
    ensures var more := blocks + Blocks(sink + |route|, bounds, assign);
            && more != [] && more[0].start == sink && more[|more| - 1].end == sink + |route| + n
            && forall j | 0 <= j < |more| - 1 :: more[j].end == more[j + 1].start
  {
    hide Uniform;
    var added := Blocks(sink + |route|, bounds, assign);
    var more := blocks + added;
    forall j | 0 <= j < |more| - 1 ensures more[j].end == more[j + 1].start {
      if j >= |blocks| {
        assert more[j] == added[j - |blocks|] && more[j + 1] == added[j + 1 - |blocks|];
      }
    }
  }

  lemma {:induction false} PickFrom<T>(xs: seq<T>, labels: seq<nat>, s: nat, i: nat) returns (j: nat)
    requires |xs| == |labels| && i < |Pick(xs, labels, s)|
    ensures j < |xs| && labels[j] == s && xs[j] == Pick(xs, labels, s)[i]
  {
    var n := |xs| - 1;
    if i < |Pick(xs[..n], labels[..n], s)| {
      j := PickFrom(xs[..n], labels[..n], s, i);
    } else {
      j := n;
    }
  }

  /** Non-empty ranges below `n`, one after another, possibly with gaps. */
  ghost predicate Ordered(r: Bounds, n: nat) {
    && (forall i | 0 <= i < |r| :: r[i].0 < r[i].1 <= n)
    && forall i, j | 0 <= i < j < |r| :: r[i].1 <= r[j].0
  }

  lemma OrderedExtend(r: Bounds, n: nat, b: (nat, nat))
    requires Ordered(r, n) && n <= b.0 < b.1
    ensures Ordered(r + [b], b.1)
  {
  }

  lemma {:induction false} PickedInOrder(bounds: Bounds, assign: seq<nat>, s: nat, n: nat)
    requires |assign| == |bounds| && Tiled(bounds, n)
    ensures Ordered(Pick(bounds, assign, s), n)
  {
    if bounds == [] {
    } else {
      var k := |bounds| - 1;
      TiledPrefix(bounds, n);
      PickedInOrder(bounds[..k], assign[..k], s, bounds[k].0);
      var before: Bounds := Pick(bounds[..k], assign[..k], s);
      assert Ordered(before, bounds[k].0);
      OrderedExtend(before, bounds[k].0, bounds[k]);
    }
  }

  /** A range of the chunk, as a span, holds the tokens of its positions. */
  lemma CutIsSound(sink: nat, h: seq<KV>, start: nat, cut: seq<KV>, from: nat, end: nat, s: nat, blocks: seq<Block>,
                   j: nat)
    requires from < end <= |cut| && start + |cut| <= |h| && cut == h[start..][..|cut|]
    requires j < |blocks| && blocks[j] == Block(start + from, start + end, s)
    ensures SpanSound(Span(cut[from..end], Range(start + from, end - from)), s, h, blocks)
  {
    assert cut[from..end] == h[start + from..start + end];
    assert blocks[j] in blocks;
  }

  /** Every new span is a whole span of the chunk, holding the tokens of its positions. */
  lemma NewSpansSound(sink: nat, h: seq<KV>, route: seq<nat>, cut: seq<KV>, bounds: Bounds, assign: seq<nat>, n: nat,
                      s: nat, blocks: seq<Block>)
    requires |assign| == |bounds| && Tiled(bounds, n) && n <= |cut| && InRange(bounds, |cut|)
    requires sink + |route| + |cut| <= |h| && cut == h[sink + |route|..][..|cut|]
    ensures var added := NewSpans(cut, sink + |route|, bounds, assign, s);
            && (forall i | 0 <= i < |added| ::
                  SpanSound(added[i], s, h, blocks + Blocks(sink + |route|, bounds, assign)))
            && InOrder(added)
            && forall i | 0 <= i < |added| :: added[i].pos[0] >= sink + |route|
  {
    hide Tiled, Pick, SpanSound, InOrder;
    var start := sink + |route|;
    var added := NewSpans(cut, start, bounds, assign, s);
    var picked: Bounds := Pick(bounds, assign, s);
    PickedInOrder(bounds, assign, s, n);
    forall i | 0 <= i < |added|
      ensures SpanSound(added[i], s, h, blocks + Blocks(start, bounds, assign))
    {
      var j := PickFrom(bounds, assign, s, i);
      assert (blocks + Blocks(start, bounds, assign))[|blocks| + j] == Blocks(start, bounds, assign)[j];
      CutIsSound(sink, h, start, cut, picked[i].0, picked[i].1, s, blocks + Blocks(start, bounds, assign),
                 |blocks| + j);
    }
    CutsInOrder(cut, start, picked, n);
  }

  lemma CutsInOrder(cut: seq<KV>, start: nat, picked: Bounds, n: nat)
    requires Ordered(picked, n) && n <= |cut| && InRange(picked, |cut|)
    ensures InOrder(Cut(cut, start, picked))
    ensures forall i | 0 <= i < |picked| ::
      Cut(cut, start, picked)[i].pos != [] && Cut(cut, start, picked)[i].pos[0] >= start
  {
  }

  lemma SelectInOrder(spans: seq<Span>, keep: seq<nat>)
    requires InOrder(spans) && Increasing(keep) && Below(keep, |spans|)
    ensures InOrder(Select(spans, keep))
  {
  }

  lemma ConcatInOrder(sink: nat, older: seq<Span>, added: seq<Span>, s: nat, h: seq<KV>, blocks: seq<Block>,
                      route: seq<nat>)
    requires InOrder(older) && InOrder(added) && BlocksOk(sink, blocks, route)
    requires forall i | 0 <= i < |older| :: SpanSound(older[i], s, h, blocks)
    requires forall i | 0 <= i < |added| :: added[i].pos[0] >= sink + |route|
    ensures InOrder(older + added)
  {
    forall i | 0 <= i < |older| ensures older[i].pos[0] + |older[i].pos| <= sink + |route| {
      SpanPlace(sink, older[i], s, h, blocks, route);
    }
    hide BlocksOk, SpanSound;
  }

  lemma TouchedSpansSound(cfg: Config, slot: SpanSlot, h: seq<KV>, route: seq<nat>, cut: seq<KV>, bounds: Bounds,
                          assign: seq<nat>, n: nat, s: nat, keep: seq<nat>, blocks: seq<Block>)
    requires SpansSound(slot, s, h, blocks) && BlocksOk(cfg.sink, blocks, route)
    requires |assign| == |bounds| && Tiled(bounds, n) && n <= |cut| && InRange(bounds, |cut|)
    requires cfg.sink + |route| + |cut| <= |h| && cut == h[cfg.sink + |route|..][..|cut|]
    requires KeepFits(slot, |Pick<(nat, nat)>(bounds, assign, s)|, keep) && Pick<(nat, nat)>(bounds, assign, s) != []
    ensures SpansSound(SlotStep(cfg, slot, cut, cfg.sink + |route|, bounds, assign, s, keep), s, h,
                       blocks + Blocks(cfg.sink + |route|, bounds, assign))
  {
    hide BlocksOk, Tiled, InRange, Pick, NewSpans, SpanSound, Blocks, AbsorbSpans, SpanTokens, InOrder;
    var added := NewSpans(cut, cfg.sink + |route|, bounds, assign, s);
    var more := blocks + Blocks(cfg.sink + |route|, bounds, assign);
    NewSpansSound(cfg.sink, h, route, cut, bounds, assign, n, s, blocks);
    ConcatInOrder(cfg.sink, slot.spans, added, s, h, blocks, route);
    SpansSurvive(slot, s, h, blocks, [], Blocks(cfg.sink + |route|, bounds, assign));
    assert h + [] == h;
    TokensOfSome(added);
    SelectInOrder(slot.spans + added, keep);
    var r := Select(slot.spans + added, keep);
    forall i | 0 <= i < |r| ensures SpanSound(r[i], s, h, more) {
      if keep[i] >= |slot.spans| {
        assert r[i] == added[keep[i] - |slot.spans|];
      } else {
        assert r[i] == slot.spans[keep[i]];
      }
    }
  }

  lemma TokensOfSome(spans: seq<Span>)
    requires forall i | 0 <= i < |spans| :: spans[i].tokens != []
    ensures spans != [] ==> SpanTokens(spans) != []
  {
  }

  lemma PickedSome(bounds: Bounds, assign: seq<nat>, s: nat)
    requires |assign| == |bounds|
    ensures s in assign <==> Pick<(nat, nat)>(bounds, assign, s) != []
  {
    if bounds != [] {
      var n := |bounds| - 1;
      PickedSome(bounds[..n], assign[..n], s);
      assert assign == assign[..n] + [assign[n]];
      assert s in assign <==> s in assign[..n] || s == assign[n];
    }
  }

  /** The pending tokens are the next ones of the history. */
  lemma PendingIsNext(cfg: Config, b: Bank, h: seq<KV>, blocks: seq<Block>)
    requires Sound(cfg, b, h, blocks) && b.win.pend != []
    ensures b.evicted == |Labels(b.chunks)| && cfg.sink + b.evicted + |b.win.pend| <= |h|
    ensures b.win.pend == h[cfg.sink + b.evicted..][..|b.win.pend|]
    ensures |b.slots| == cfg.mSlots && BlocksOk(cfg.sink, blocks, Labels(b.chunks))
    ensures forall s | 0 <= s < cfg.mSlots ::
              SlotOk(cfg.dim, cfg.sink, View(b.slots[s]), s, h, Labels(b.chunks))
                && SpansSound(b.slots[s], s, h, blocks)
  {
    hide SlotOk, SpansSound, BlocksOk, ChunksOk;
    ReleaseHolds(cfg.sink, cfg.window, b.win, b.evicted, h, |b.win.pend|);
    assert b.win.pend == b.win.pend[..|b.win.pend|];
    forall s | 0 <= s < cfg.mSlots ensures SlotOk(cfg.dim, cfg.sink, View(b.slots[s]), s, h, Labels(b.chunks)) {
      assert SlotOk(cfg.dim, cfg.sink, Views(b.slots)[s], s, h, Labels(b.chunks));
    }
  }

  lemma SlotParts(dim: nat, sink: nat, slot: Slot, s: nat, h: seq<KV>, route: seq<nat>)
    requires SlotOk(dim, sink, slot, s, h, route)
    ensures |Gone(h, sink, |route|)| == |route| && slot.count == |Members(h, sink, route, s)|
    ensures IsMean(dim, slot.mean, Members(h, sink, route, s))
  {
  }

  /** A slot that takes spans: its count and mean follow, and it keeps whole spans in order. */
  lemma TouchedSlotOk(cfg: Config, slot: SpanSlot, h: seq<KV>, route: seq<nat>, cut: seq<KV>, bounds: Bounds,
                      assign: seq<nat>, n: nat, s: nat, keep: seq<nat>, blocks: seq<Block>)
    requires SlotOk(cfg.dim, cfg.sink, View(slot), s, h, route) && SpansSound(slot, s, h, blocks)
      && BlocksOk(cfg.sink, blocks, route)
    requires |assign| == |bounds| && Tiled(bounds, n) && 0 < n <= |cut| && InRange(bounds, |cut|)
    requires cfg.sink + |route| + |cut| <= |h| && cut == h[cfg.sink + |route|..][..|cut|]
    requires KeepFits(slot, |Pick<(nat, nat)>(bounds, assign, s)|, keep) && Pick<(nat, nat)>(bounds, assign, s) != []
    ensures var r := SlotStep(cfg, slot, cut, cfg.sink + |route|, bounds, assign, s, keep);
            && SlotOk(cfg.dim, cfg.sink, View(r), s, h, route + TokenLabels(bounds, assign))
            && SpansSound(r, s, h, blocks + Blocks(cfg.sink + |route|, bounds, assign))
  {
    hide SlotOk, SpansSound, BlocksOk, Tiled, InRange, Pick, KeepFits, SlotStep, Labels, TokenLabels, Members, RepsOk,
         Blocks, NewSpans, SpanTokens, SpanPositions;
    var r := SlotStep(cfg, slot, cut, cfg.sink + |route|, bounds, assign, s, keep);
    var added := NewSpans(cut, cfg.sink + |route|, bounds, assign, s);
    var labels := TokenLabels(bounds, assign);
    TouchedSpansSound(cfg, slot, h, route, cut, bounds, assign, n, s, keep, blocks);
    BlocksGrow(cfg.sink, blocks, route, bounds, assign, n);
    ViewRepsOk(cfg.sink, r, s, h, blocks + Blocks(cfg.sink + |route|, bounds, assign), route + labels);
    NewSpansArePicked(cut, cfg.sink + |route|, bounds, assign, s, n);
    SlotParts(cfg.dim, cfg.sink, View(slot), s, h, route);
    AbsorbSpansIsMean(cfg.dim, slot.mean, Members(h, cfg.sink, route, s), added);
    SlotStepParts(cfg, slot, cut, cfg.sink + |route|, bounds, assign, s, keep);
    assert cut[..n] == h[cfg.sink + |route|..][..n];
    TouchedSlot(cfg.dim, cfg.sink, View(slot), s, h, route, cut[..n], labels, View(r));
  }

  lemma SlotStepParts(cfg: Config, slot: SpanSlot, cut: seq<KV>, start: nat, bounds: Bounds, assign: seq<nat>, s: nat,
                      keep: seq<nat>)
    requires |assign| == |bounds| && InRange(bounds, |cut|)
      && KeepFits(slot, |Pick<(nat, nat)>(bounds, assign, s)|, keep)
    ensures var r, added := SlotStep(cfg, slot, cut, start, bounds, assign, s, keep),
      NewSpans(cut, start, bounds, assign, s);
            && r.count == slot.count + |SpanTokens(added)|
            && r.mean == AbsorbSpans(cfg.dim, slot.mean, slot.count, added)
            && r.spans == Select(slot.spans + added, keep)
  {
  }

  lemma RoutedSlotOk(cfg: Config, b: Bank, h: seq<KV>, blocks: seq<Block>, bounds: Bounds, assign: seq<nat>,
                     keeps: map<nat, seq<nat>>, routed: nat, s: nat)
    requires Sound(cfg, b, h, blocks) && SpanFits(cfg, b, bounds, assign, keeps, routed) && s < cfg.mSlots
    ensures var r := RoutedSlot(cfg, b, bounds, assign, keeps, routed, s);
            && SlotOk(cfg.dim, cfg.sink, View(r), s, h, Labels(b.chunks) + TokenLabels(bounds, assign))
            && SpansSound(r, s, h, blocks + Blocks(cfg.sink + b.evicted, bounds, assign))
  {
    hide Sound, SlotOk, SpansSound, BlocksOk, KeepFits, Pick, Labels, SlotStep, Below, Tiled, InRange, TokenLabels,
         SpanTokens, SpanPositions;
    PendingIsNext(cfg, b, h, blocks);
    PickedSome(bounds, assign, s);
    if s in keeps {
      TouchedSlotOk(cfg, b.slots[s], h, Labels(b.chunks), b.win.pend, bounds, assign, routed, s, keeps[s], blocks);
    } else {
      UntouchedSpans(cfg, b.slots[s], h, Labels(b.chunks), b.win.pend, bounds, assign, routed, s, blocks);
    }
  }

  lemma UntouchedSpans(cfg: Config, slot: SpanSlot, h: seq<KV>, route: seq<nat>, cut: seq<KV>, bounds: Bounds,
                       assign: seq<nat>, n: nat, s: nat, blocks: seq<Block>)
    requires SlotOk(cfg.dim, cfg.sink, View(slot), s, h, route) && SpansSound(slot, s, h, blocks)
    requires |assign| == |bounds| && Tiled(bounds, n) && n <= |cut| && InRange(bounds, |cut|)
    requires cfg.sink + |route| + |cut| <= |h| && cut == h[cfg.sink + |route|..][..|cut|]
    requires Pick<(nat, nat)>(bounds, assign, s) == []
    ensures SlotOk(cfg.dim, cfg.sink, View(slot), s, h, route + TokenLabels(bounds, assign))
    ensures SpansSound(slot, s, h, blocks + Blocks(cfg.sink + |route|, bounds, assign))
  {
    hide SlotOk, SpansSound, Tiled, InRange, Pick, TokenLabels, SpanPositions;
    NewSpansArePicked(cut, cfg.sink + |route|, bounds, assign, s, n);
    assert NewSpans(cut, cfg.sink + |route|, bounds, assign, s) == [];
    assert cut[..n] == h[cfg.sink + |route|..][..n];
    UntouchedSlot(cfg.dim, cfg.sink, View(slot), s, h, route, cut[..n], TokenLabels(bounds, assign));
    SpansSurvive(slot, s, h, blocks, [], Blocks(cfg.sink + |route|, bounds, assign));
    assert h + [] == h;
  }

  /** A fold keeps every slot exact and made of whole spans. */
  lemma RouteFoldSound(cfg: Config, b: Bank, h: seq<KV>, blocks: seq<Block>, bounds: Bounds, assign: seq<nat>,
                       keeps: map<nat, seq<nat>>, routed: nat)
    requires Sound(cfg, b, h, blocks) && SpanFits(cfg, b, bounds, assign, keeps, routed)
    ensures Sound(cfg, RouteFold(cfg, b, bounds, assign, keeps, routed), h,
                  blocks + Blocks(cfg.sink + b.evicted, bounds, assign))
  {
    hide SlotOk, Holds, ChunksOk, Labels, BlocksOk, SpansSound, Tiled, InRange, TokenLabels, KeepFits, Pick, RoutedSlot,
         Blocks, View;
    var r := RouteFold(cfg, b, bounds, assign, keeps, routed);
    var labels := TokenLabels(bounds, assign);
    LabelCount(bounds, assign, routed);
    LabelsBelow(bounds, assign, cfg.mSlots);
    ReleaseHolds(cfg.sink, cfg.window, b.win, b.evicted, h, routed);
    ChunksGrow(cfg.sink, b.chunks, labels);
    BlocksGrow(cfg.sink, blocks, Labels(b.chunks), bounds, assign, routed);
    forall s | 0 <= s < cfg.mSlots
      ensures SlotOk(cfg.dim, cfg.sink, Views(r.slots)[s], s, h, Labels(b.chunks) + labels)
      ensures SpansSound(r.slots[s], s, h, blocks + Blocks(cfg.sink + b.evicted, bounds, assign))
    {
      RoutedSlotOk(cfg, b, h, blocks, bounds, assign, keeps, routed, s);
    }
  }

  /** The blocks after an update. */
  ghost function NextBlocks(cfg: Config, a: Bank, blocks: seq<Block>, log: seq<Op>): seq<Block> {
    if |a.win.pend| < cfg.routeChunk || FoldIfFull(cfg, a, log).Raised? then blocks
    else blocks + Blocks(cfg.sink + a.evicted, log[a.cursor].bounds, log[a.cursor].assign)
  }

  /** Whoever decided, one update keeps every slot exact and made of whole spans. */
  lemma StepSound(cfg: Config, b: Bank, h: seq<KV>, blocks: seq<Block>, chunk: seq<KV>, log: seq<Op>)
    requires cfg.Ok() && Sound(cfg, b, h, blocks) && |b.win.sink| <= cfg.sink && Step(cfg, b, chunk, log).Done?
    ensures Sound(cfg, Step(cfg, b, chunk, log).value, h + chunk, NextBlocks(cfg, Admitted(cfg, b, chunk), blocks, log))
  {
    hide Sound, Admit, Pick, SpanFits, RouteFold, Blocks;
    AdmittedSound(cfg, b, h, blocks, chunk);
    var a := Admitted(cfg, b, chunk);
    if |a.win.pend| >= cfg.routeChunk {
      var op := log[a.cursor];
      RouteFoldSound(cfg, a, h + chunk, blocks, op.bounds, op.assign, op.keeps, op.routed);
    }
  }

  // ---- the routed spans are those of the log --------------------------------

  /** How many tokens the routing decisions of a log evict. */
  ghost function LogRouted(log: seq<Op>): nat {
    if log == [] then 0
    else
      var n := |log| - 1;
      LogRouted(log[..n]) + if log[n].RouteSpan? then log[n].routed else 0
  }

  /** Where decision `k` of a log found its tail: right behind what the earlier decisions routed. */
  ghost function TailStart(sink: nat, log: seq<Op>, k: nat): nat
    requires k <= |log|
  {
    sink + LogRouted(log[..k])
  }

  /** The spans that the last decision of a log cuts. */
  ghost function LastBlocks(sink: nat, log: seq<Op>): seq<Block>
    requires log != []
  {
    var op := log[|log| - 1];
    if op.RouteSpan? && |op.assign| == |op.bounds|
    then Blocks(TailStart(sink, log, |log| - 1), op.bounds, op.assign) else []
  }

  /** The spans that the routing decisions of a log cut, at their absolute positions. */
  ghost function LogBlocks(sink: nat, log: seq<Op>): seq<Block> {
    if log == [] then [] else LogBlocks(sink, log[..|log| - 1]) + LastBlocks(sink, log)
  }

  /** `blocks` are the spans of exactly the decisions that the layer has read from the log. */
  ghost predicate Anchored(cfg: Config, b: Bank, blocks: seq<Block>, log: seq<Op>) {
    b.cursor <= |log| && b.evicted == LogRouted(log[..b.cursor]) && blocks == LogBlocks(cfg.sink, log[..b.cursor])
  }

  lemma AnchoredGrows(cfg: Config, b: Bank, blocks: seq<Block>, log: seq<Op>, log': seq<Op>)
    requires Anchored(cfg, b, blocks, log) && log <= log'
    ensures Anchored(cfg, b, blocks, log')
  {
    assert log'[..b.cursor] == log[..b.cursor];
  }

  lemma AnchoredStep(cfg: Config, b: Bank, blocks: seq<Block>, chunk: seq<KV>, log: seq<Op>)
    requires |b.win.sink| <= cfg.sink && Anchored(cfg, b, blocks, log) && Step(cfg, b, chunk, log).Done?
    ensures Anchored(cfg, Step(cfg, b, chunk, log).value, NextBlocks(cfg, Admitted(cfg, b, chunk), blocks, log), log)
  {
    hide Admit, RoutedSlot, KeepFits, Tiled, InRange, Pick, TokenLabels, Below;
    var a := Admitted(cfg, b, chunk);
    if |a.win.pend| >= cfg.routeChunk {
      assert log[..a.cursor + 1][..a.cursor] == log[..a.cursor];
    }
  }

  lemma TailStartStays(sink: nat, log: seq<Op>, log': seq<Op>, k: nat)
    requires k <= |log| && log <= log'
    ensures TailStart(sink, log', k) == TailStart(sink, log, k)
  {
    assert log[..k] == log'[..k];
  }

  /** Logged decision `k` split a tail of `total` tokens at its breaks. */
  ghost predicate SplitAt(cfg: Config, mask: Option<seq<bool>>, log: seq<Op>, k: nat, total: nat)
    requires cfg.Ok() && k < |log|
  {
    && log[k].RouteSpan?
    && SplitOk(cfg.Split(), mask, TailStart(cfg.sink, log, k), total, log[k].bounds, log[k].routed)
  }

  /** Every logged decision is a split of the tail it found; `tails` are the lengths of these tails. */
  ghost predicate LogCut(cfg: Config, mask: Option<seq<bool>>, log: seq<Op>, tails: seq<nat>)
    requires cfg.Ok()
  {
    |tails| == |log| && forall k | 0 <= k < |log| :: SplitAt(cfg, mask, log, k, tails[k])
  }

  /** Block `x` is span `j` of decision `k`, which split a tail of `total` tokens. */
  ghost predicate CutFromLog(cfg: Config, mask: Option<seq<bool>>, log: seq<Op>, k: nat, total: nat, j: nat, x: Block)
    requires cfg.Ok() && k < |log|
  {
    var start := TailStart(cfg.sink, log, k);
    && SplitAt(cfg, mask, log, k, total) && j < |log[k].bounds| == |log[k].assign|
    && x == Block(start + log[k].bounds[j].0, start + log[k].bounds[j].1, log[k].assign[j])
  }

  lemma CutElsewhere(cfg: Config, mask: Option<seq<bool>>, log: seq<Op>, log': seq<Op>, k: nat, total: nat)
    requires cfg.Ok() && k < |log| && log <= log'
    ensures TailStart(cfg.sink, log', k) == TailStart(cfg.sink, log, k)
    ensures SplitAt(cfg, mask, log, k, total) <==> SplitAt(cfg, mask, log', k, total)
  {
    hide SplitOk, TailStart;
    TailStartStays(cfg.sink, log, log', k);
  }

  lemma LogCutGrows(cfg: Config, mask: Option<seq<bool>>, log: seq<Op>, tails: seq<nat>, op: Op, total: nat)
    requires cfg.Ok() && LogCut(cfg, mask, log, tails)
    requires op.RouteSpan? && SplitOk(cfg.Split(), mask, cfg.sink + LogRouted(log), total, op.bounds, op.routed)
    ensures LogCut(cfg, mask, log + [op], tails + [total])
  {
    hide SplitOk, SplitAt;
    var more, lens := log + [op], tails + [total];
    forall k | 0 <= k < |more| ensures SplitAt(cfg, mask, more, k, lens[k]) {
      if k < |log| {
        CutElsewhere(cfg, mask, log, more, k, tails[k]);
      } else {
        LastCut(cfg, mask, log, op, total);
      }
    }
  }

  lemma LastCut(cfg: Config, mask: Option<seq<bool>>, log: seq<Op>, op: Op, total: nat)
    requires cfg.Ok() && op.RouteSpan?
    requires SplitOk(cfg.Split(), mask, cfg.sink + LogRouted(log), total, op.bounds, op.routed)
    ensures SplitAt(cfg, mask, log + [op], |log|, total)
  {
    hide SplitOk, LogRouted;
    var more := log + [op];
    assert more[..|log|] == log && more[|log|] == op;
    assert TailStart(cfg.sink, more, |log|) == cfg.sink + LogRouted(log);
    hide TailStart;
  }

  lemma LogCutPrefix(cfg: Config, mask: Option<seq<bool>>, log: seq<Op>, tails: seq<nat>, n: nat)
    requires cfg.Ok() && LogCut(cfg, mask, log, tails) && n <= |log|
    ensures LogCut(cfg, mask, log[..n], tails[..n])
  {
    hide SplitAt;
    forall k | 0 <= k < n ensures SplitAt(cfg, mask, log[..n], k, tails[..n][k]) {
      CutElsewhere(cfg, mask, log[..n], log, k, tails[k]);
    }
  }

  /** Every routed span is a span of one split. */
  lemma {:induction false} BlockIsLogged(cfg: Config, mask: Option<seq<bool>>, log: seq<Op>, tails: seq<nat>, x: Block)
    returns (k: nat, j: nat)
    requires cfg.Ok() && LogCut(cfg, mask, log, tails) && x in LogBlocks(cfg.sink, log)
    ensures k < |log| == |tails| && CutFromLog(cfg, mask, log, k, tails[k], j, x)
  {
    hide SplitAt, Blocks, LogRouted, TailStart;
    var n, op := |log| - 1, log[|log| - 1];
    if x in LogBlocks(cfg.sink, log[..n]) {
      LogCutPrefix(cfg, mask, log, tails, n);
      k, j := BlockIsLogged(cfg, mask, log[..n], tails[..n], x);
      CutElsewhere(cfg, mask, log[..n], log, k, tails[k]);
    } else {
      k := n;
      j := LastBlock(cfg.sink, log, x);
    }
  }

  lemma LastBlock(sink: nat, log: seq<Op>, x: Block) returns (j: nat)
    requires log != [] && x in LogBlocks(sink, log) && x !in LogBlocks(sink, log[..|log| - 1])
    ensures var op, start := log[|log| - 1], TailStart(sink, log, |log| - 1);
            && op.RouteSpan? && j < |op.bounds| == |op.assign|
            && x == Block(start + op.bounds[j].0, start + op.bounds[j].1, op.assign[j])
  {
    hide TailStart, Blocks;
    var more := LastBlocks(sink, log);
    assert x in more;
    j :| 0 <= j < |more| && more[j] == x;
  }

  /** Every kept span is one routed span, whole, and its tokens were all routed to this slot. */
  lemma KeptSpansAreWhole(cfg: Config, b: Bank, h: seq<KV>, blocks: seq<Block>, log: seq<Op>, s: nat, i: nat)
    requires Sound(cfg, b, h, blocks) && Anchored(cfg, b, blocks, log) && s < |b.slots| && i < |b.slots[s].spans|
    ensures var sp := b.slots[s].spans[i];
            && sp.pos != [] && Block(sp.pos[0], sp.pos[0] + |sp.pos|, s) in LogBlocks(cfg.sink, log[..b.cursor])
            && sp.pos[0] + |sp.pos| <= |h| && sp.tokens == h[sp.pos[0]..sp.pos[0] + |sp.pos|]
            && forall k | 0 <= k < |sp.pos| ::
                 sp.pos[k] == sp.pos[0] + k && cfg.sink <= sp.pos[k] < cfg.sink + b.evicted
                 && Labels(b.chunks)[sp.pos[k] - cfg.sink] == s
  {
    assert SpansSound(b.slots[s], s, h, blocks);
    SpanPlace(cfg.sink, b.slots[s].spans[i], s, h, blocks, Labels(b.chunks));
  }
}
