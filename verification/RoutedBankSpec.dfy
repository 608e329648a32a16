/** RoutedBankLayer as a function of its state, the incoming chunk and the op log. */
module RoutedBankSpec {
  import opened Lists
  import opened Tokens
  import opened Eviction
  import opened OpLog
  import opened TopK
  import opened Routed

  datatype RouteOn = OnKey | OnResid | OnValue

  datatype Config = Config(dim: nat, sink: nat, window: nat, mSlots: nat, reps: nat, routeChunk: nat,
                           routeOn: RouteOn, momentum: real, unit: Vec -> Vec)
  {
    predicate Ok() { mSlots >= 1 && routeChunk >= 1 }

    predicate SameLimits(o: Config) {
      sink == o.sink && window == o.window && mSlots == o.mSlots && reps == o.reps && routeChunk == o.routeChunk
    }
  }

  datatype Bank = Bank(win: Window<KV>, evicted: nat, seen: nat, slots: seq<Slot>, chunks: seq<Assigned>, cursor: nat)

  function Empty(cfg: Config): Bank {
    Bank(Window([], [], []), 0, 0, seq(cfg.mSlots, _ => EmptySlot(cfg.dim)), [], 0)
  }

  predicate KeepFits(cfg: Config, slot: Slot, added: nat, keep: seq<nat>) {
    && Increasing(keep) && Below(keep, |slot.reps| + added) && Below(keep, |slot.repPos| + added)
    && |keep| == Min(cfg.reps, |slot.reps| + added)
  }

  predicate RouteFits(cfg: Config, b: Bank, assign: seq<nat>, keeps: map<nat, seq<nat>>) {
    && |assign| == |b.win.pend| && Below(assign, cfg.mSlots) && |b.slots| == cfg.mSlots
    && keeps.Keys == (set s | s in assign)
    && forall s | 0 <= s < cfg.mSlots && s in keeps ::
       KeepFits(cfg, b.slots[s], |Pick(b.win.pend, assign, s)|, keeps[s])
  }

  /** Slot `s` after its tokens of the chunk joined: new mean, and the kept ones of old and new tokens. */
  function SlotStep(cfg: Config, slot: Slot, cut: seq<KV>, start: nat, assign: seq<nat>, s: nat, keep: seq<nat>): Slot
    requires |assign| == |cut| && KeepFits(cfg, slot, |Pick(cut, assign, s)|, keep)
    requires Pick(cut, assign, s) != []
  {
    var joined := Pick(cut, assign, s);
    SamePickLength(cut, Range(start, |cut|), assign, s);
    Slot(slot.count + |joined|, Absorb(cfg.dim, slot.mean, slot.count, joined),
         Select(slot.reps + joined, keep), Select(slot.repPos + Pick<nat>(Range(start, |cut|), assign, s), keep))
  }

  lemma {:induction false} SamePickLength<A, B>(xs: seq<A>, ys: seq<B>, labels: seq<nat>, s: nat)
    requires |xs| == |ys| == |labels|
    ensures |Pick(xs, labels, s)| == |Pick(ys, labels, s)|
  {
    if xs == [] {
    } else {
      SamePickLength(xs[..|xs| - 1], ys[..|xs| - 1], labels[..|xs| - 1], s);
    }
  }

  lemma {:induction false} PickedSomething<T>(xs: seq<T>, labels: seq<nat>, s: nat)
    requires |xs| == |labels|
    ensures s in labels <==> Pick(xs, labels, s) != []
  {
    if xs == [] {
    } else {
      var n := |xs| - 1;
      PickedSomething(xs[..n], labels[..n], s);
      assert labels == labels[..n] + [labels[n]];
    }
  }

  ghost function RoutedSlot(cfg: Config, b: Bank, assign: seq<nat>, keeps: map<nat, seq<nat>>, s: nat): Slot
    requires RouteFits(cfg, b, assign, keeps) && s < cfg.mSlots
  {
    if s in keeps then
      PickedSomething(b.win.pend, assign, s);
      SlotStep(cfg, b.slots[s], b.win.pend, cfg.sink + b.evicted, assign, s, keeps[s])
    else b.slots[s]
  }

  ghost function RouteFold(cfg: Config, b: Bank, assign: seq<nat>, keeps: map<nat, seq<nat>>): Bank
    requires RouteFits(cfg, b, assign, keeps)
  {
    b.(win := b.win.(pend := []), evicted := b.evicted + |assign|,
       slots := seq(cfg.mSlots, s requires 0 <= s < cfg.mSlots => RoutedSlot(cfg, b, assign, keeps, s)),
       chunks := b.chunks + [Assigned(cfg.sink + b.evicted, assign)], cursor := b.cursor + 1)
  }

  ghost function Admitted(cfg: Config, b: Bank, chunk: seq<KV>): Bank
    requires |b.win.sink| <= cfg.sink
  {
    b.(win := Admit(cfg.sink, cfg.window, b.win, chunk), seen := b.seen + |chunk|)
  }

  ghost function FoldIfFull(cfg: Config, a: Bank, log: seq<Op>): Outcome<Bank> {
    if |a.win.pend| < cfg.routeChunk then Done(a)
    else if a.cursor >= |log| then Raised(LogExhausted)
    else if !log[a.cursor].Route? then Raised(Desync)
    else if !RouteFits(cfg, a, log[a.cursor].assign, log[a.cursor].keeps) then Raised(Misfit)
    else Done(RouteFold(cfg, a, log[a.cursor].assign, log[a.cursor].keeps))
  }

  /** One update: admit the chunk, then route everything pending once it fills a routing chunk. */
  ghost function Step(cfg: Config, b: Bank, chunk: seq<KV>, log: seq<Op>): Outcome<Bank>
    requires |b.win.sink| <= cfg.sink
  {
    FoldIfFull(cfg, Admitted(cfg, b, chunk), log)
  }

  // ---- what every reachable state satisfies -------------------------------

  ghost predicate Sound(cfg: Config, b: Bank, h: seq<KV>) {
    && BankOk(cfg.dim, cfg.sink, cfg.window, b.win, b.slots, h, Labels(b.chunks))
    && b.evicted == |Labels(b.chunks)| && b.seen == |h| && |b.slots| == cfg.mSlots
    && ChunksOk(cfg.sink, b.chunks)
    && forall s | 0 <= s < |b.slots| :: |b.slots[s].repPos| == Min(cfg.reps, b.slots[s].count)
  }

  lemma EmptySound(cfg: Config)
    ensures Sound(cfg, Empty(cfg), [])
  {
    forall s | 0 <= s < cfg.mSlots ensures SlotOk(cfg.dim, cfg.sink, EmptySlot(cfg.dim), s, [], []) {
      ZeroIsMean(cfg.dim);
    }
  }

  lemma AdmittedSound(cfg: Config, b: Bank, h: seq<KV>, chunk: seq<KV>)
    requires Sound(cfg, b, h)
    ensures |b.win.sink| <= cfg.sink
    ensures Sound(cfg, Admitted(cfg, b, chunk), h + chunk)
  {
    var route := Labels(b.chunks);
    AdmitHolds(cfg.sink, cfg.window, b.win, |route|, h, chunk);
    hide Admit, Holds;
    forall s | 0 <= s < |b.slots| ensures SlotOk(cfg.dim, cfg.sink, b.slots[s], s, h + chunk, route) {
      SlotSurvives(cfg.dim, cfg.sink, b.slots[s], s, h, route, chunk);
    }
  }

  /** Positions picked from a run of positions: increasing, labelled `s`, and each naming its token. */
  lemma {:induction false} PickedPositions(cut: seq<KV>, start: nat, assign: seq<nat>, s: nat)
    requires |cut| == |assign|
    ensures var pos, ts := Pick<nat>(Range(start, |cut|), assign, s), Pick(cut, assign, s);
            && |pos| == |ts| && Increasing(pos)
            && forall i | 0 <= i < |pos| ::
                 start <= pos[i] < start + |cut| && assign[pos[i] - start] == s && ts[i] == cut[pos[i] - start]
  {
    if cut == [] {
    } else {
      var n := |cut| - 1;
      PickedPositions(cut[..n], start, assign[..n], s);
      assert Range(start, n + 1)[..n] == Range(start, n);
    }
  }

  lemma RepsStep(cfg: Config, slot: Slot, h: seq<KV>, route: seq<nat>, cut: seq<KV>, assign: seq<nat>, s: nat,
                 keep: seq<nat>)
    requires RepsOk(cfg.sink, slot, s, h, route)
    requires cfg.sink + |route| + |cut| <= |h| && cut == h[cfg.sink + |route|..][..|cut|] && |assign| == |cut|
    requires KeepFits(cfg, slot, |Pick(cut, assign, s)|, keep) && Pick(cut, assign, s) != []
    ensures RepsOk(cfg.sink, SlotStep(cfg, slot, cut, cfg.sink + |route|, assign, s, keep), s, h, route + assign)
  {
    var start := cfg.sink + |route|;
    var ts, pos := Pick(cut, assign, s), Pick<nat>(Range(start, |cut|), assign, s);
    PickedPositions(cut, start, assign, s);
    hide Pick, Absorb, Increasing;
    SamePickLength(cut, Range(start, |cut|), assign, s);
    CandidatesOk(cfg, slot, h, route, assign, s, ts, pos);
    SelectedOk(cfg, slot.(reps := slot.reps + ts, repPos := slot.repPos + pos), h, route + assign, s, keep);
    hide RepsOk;
    OnlyReps(cfg, slot.(reps := Select(slot.reps + ts, keep), repPos := Select(slot.repPos + pos, keep)),
             SlotStep(cfg, slot, cut, start, assign, s, keep), h, route + assign, s);
  }

  lemma SelectedOk(cfg: Config, slot: Slot, h: seq<KV>, route: seq<nat>, s: nat, keep: seq<nat>)
    requires RepsOk(cfg.sink, slot, s, h, route) && Increasing(keep) && Below(keep, |slot.reps|)
    ensures RepsOk(cfg.sink, slot.(reps := Select(slot.reps, keep), repPos := Select(slot.repPos, keep)), s, h, route)
  {
  }

  lemma OnlyReps(cfg: Config, a: Slot, b: Slot, h: seq<KV>, route: seq<nat>, s: nat)
    requires RepsOk(cfg.sink, a, s, h, route) && a.reps == b.reps && a.repPos == b.repPos
    ensures RepsOk(cfg.sink, b, s, h, route)
  {
  }

  /** Kept tokens and new tokens together, in the order of their positions. */
  lemma CandidatesOk(cfg: Config, slot: Slot, h: seq<KV>, route: seq<nat>, assign: seq<nat>, s: nat, ts: seq<KV>,
                     pos: seq<nat>)
    requires RepsOk(cfg.sink, slot, s, h, route) && |ts| == |pos| && Increasing(pos)
    requires forall i | 0 <= i < |pos| ::
      cfg.sink + |route| <= pos[i] < cfg.sink + |route| + |assign| && pos[i] < |h|
      && assign[pos[i] - cfg.sink - |route|] == s && ts[i] == h[pos[i]]
    ensures RepsOk(cfg.sink, slot.(reps := slot.reps + ts, repPos := slot.repPos + pos), s, h, route + assign)
  {
    forall i | 0 <= i < |slot.repPos + pos|
      ensures var p := (slot.repPos + pos)[i];
              cfg.sink <= p < cfg.sink + |route + assign| && p < |h| && (route + assign)[p - cfg.sink] == s
              && (slot.reps + ts)[i] == h[p]
    {
      if i >= |slot.repPos| {
        assert (slot.repPos + pos)[i] == pos[i - |slot.repPos|] && (slot.reps + ts)[i] == ts[i - |slot.repPos|];
      }
    }
  }

  /** The pending tokens are the next ones of the history. */
  lemma PendingIsNext(cfg: Config, b: Bank, h: seq<KV>)
    requires Sound(cfg, b, h) && b.win.pend != []
    ensures b.evicted == |Labels(b.chunks)| && cfg.sink + b.evicted + |b.win.pend| <= |h|
    ensures b.win.pend == h[cfg.sink + b.evicted..][..|b.win.pend|]
    ensures forall s | 0 <= s < cfg.mSlots ::
              && SlotOk(cfg.dim, cfg.sink, b.slots[s], s, h, Labels(b.chunks))
              && |b.slots[s].reps| == |b.slots[s].repPos| == Min(cfg.reps, b.slots[s].count)
  {
    hide IsMean, Increasing;
    ReleaseHolds(cfg.sink, cfg.window, b.win, b.evicted, h, |b.win.pend|);
    assert b.win.pend == b.win.pend[..|b.win.pend|];
  }

  lemma TouchedSlotOk(cfg: Config, slot: Slot, h: seq<KV>, route: seq<nat>, cut: seq<KV>, assign: seq<nat>, s: nat,
                      keep: seq<nat>)
    requires SlotOk(cfg.dim, cfg.sink, slot, s, h, route)
    requires |slot.repPos| == Min(cfg.reps, slot.count) && |slot.reps| == |slot.repPos|
    requires cfg.sink + |route| + |cut| <= |h| && cut == h[cfg.sink + |route|..][..|cut|] && |assign| == |cut|
    requires KeepFits(cfg, slot, |Pick(cut, assign, s)|, keep) && Pick(cut, assign, s) != []
    ensures var r := SlotStep(cfg, slot, cut, cfg.sink + |route|, assign, s, keep);
            SlotOk(cfg.dim, cfg.sink, r, s, h, route + assign) && |r.repPos| == Min(cfg.reps, r.count)
  {
    hide Pick, Labels, IsMean;
    RepsStep(cfg, slot, h, route, cut, assign, s, keep);
    AbsorbIsMean(cfg.dim, slot.mean, Members(h, cfg.sink, route, s), Pick(cut, assign, s));
    hide Members, RepsOk, Absorb;
    TouchedSlot(cfg.dim, cfg.sink, slot, s, h, route, cut, assign,
                SlotStep(cfg, slot, cut, cfg.sink + |route|, assign, s, keep));
  }

  lemma RoutedSlotOk(cfg: Config, b: Bank, h: seq<KV>, assign: seq<nat>, keeps: map<nat, seq<nat>>, s: nat)
    requires Sound(cfg, b, h) && RouteFits(cfg, b, assign, keeps) && s < cfg.mSlots && assign != []
    ensures SlotOk(cfg.dim, cfg.sink, RoutedSlot(cfg, b, assign, keeps, s), s, h, Labels(b.chunks) + assign)
    ensures var r := RoutedSlot(cfg, b, assign, keeps, s); |r.repPos| == Min(cfg.reps, r.count)
  {
    hide Sound, SlotOk, KeepFits, Pick, Labels, SlotStep, Below;
    PendingIsNext(cfg, b, h);
    PickedSomething(b.win.pend, assign, s);
    if s in keeps {
      TouchedSlotOk(cfg, b.slots[s], h, Labels(b.chunks), b.win.pend, assign, s, keeps[s]);
    } else {
      UntouchedSlot(cfg.dim, cfg.sink, b.slots[s], s, h, Labels(b.chunks), b.win.pend, assign);
    }
  }

  lemma RouteFoldSound(cfg: Config, b: Bank, h: seq<KV>, assign: seq<nat>, keeps: map<nat, seq<nat>>)
    requires Sound(cfg, b, h) && RouteFits(cfg, b, assign, keeps) && assign != []
    ensures Sound(cfg, RouteFold(cfg, b, assign, keeps), h)
    ensures Labels(RouteFold(cfg, b, assign, keeps).chunks) == Labels(b.chunks) + assign
  {
    var r := RouteFold(cfg, b, assign, keeps);
    ReleaseHolds(cfg.sink, cfg.window, b.win, b.evicted, h, |assign|);
    assert b.win.pend[|assign|..] == [];
    ChunksGrow(cfg.sink, b.chunks, assign);
    forall s | 0 <= s < cfg.mSlots
      ensures SlotOk(cfg.dim, cfg.sink, r.slots[s], s, h, Labels(r.chunks))
        && |r.slots[s].repPos| == Min(cfg.reps, r.slots[s].count)
    {
      RoutedSlotOk(cfg, b, h, assign, keeps, s);
    }
    hide SlotOk, Holds, ChunksOk, Labels;
  }

  /** Whoever decided, one update keeps every slot exact and leaves less than one chunk pending. */
  lemma StepSound(cfg: Config, b: Bank, h: seq<KV>, chunk: seq<KV>, log: seq<Op>)
    requires cfg.Ok() && Sound(cfg, b, h) && |b.win.sink| <= cfg.sink && Step(cfg, b, chunk, log).Done?
    ensures Sound(cfg, Step(cfg, b, chunk, log).value, h + chunk)
    ensures |Step(cfg, b, chunk, log).value.win.pend| < cfg.routeChunk
  {
    AdmittedSound(cfg, b, h, chunk);
    var a := Admitted(cfg, b, chunk);
    hide Sound, Admit, Pick;
    if |a.win.pend| >= cfg.routeChunk {
      RouteFoldSound(cfg, a, h + chunk, log[a.cursor].assign, log[a.cursor].keeps);
    }
  }

  lemma SlotsBound(cfg: Config, slots: seq<Slot>)
    requires forall s | 0 <= s < |slots| :: |slots[s].reps| <= cfg.reps
    ensures |SlotKeys(slots)| <= |slots| * (1 + cfg.reps)
  {
    if slots != [] {
      SlotsBound(cfg, slots[..|slots| - 1]);
      assert |slots| * (1 + cfg.reps) == (|slots| - 1) * (1 + cfg.reps) + (1 + cfg.reps);
    }
  }

  /** Flat memory, whatever the history. */
  lemma FlatMemory(cfg: Config, b: Bank, h: seq<KV>)
    requires cfg.Ok() && Sound(cfg, b, h) && |b.win.pend| < cfg.routeChunk
    ensures |Materialized(b.win, b.slots)| <= cfg.sink + cfg.mSlots * (1 + cfg.reps) + (cfg.routeChunk - 1) + cfg.window
  {
    forall s | 0 <= s < |b.slots| ensures |b.slots[s].reps| <= cfg.reps {
      assert SlotOk(cfg.dim, cfg.sink, b.slots[s], s, h, Labels(b.chunks));
    }
    SlotsBound(cfg, b.slots);
  }

  // ---- replaying the log --------------------------------------------------

  ghost predicate SlotsAgree(s: Slot, t: Slot) {
    s.count == t.count && s.repPos == t.repPos && |s.reps| == |t.reps|
  }

  ghost predicate Agree(a: Bank, b: Bank) {
    && |a.win.sink| == |b.win.sink| && |a.win.pend| == |b.win.pend| && |a.win.ring| == |b.win.ring|
    && a.evicted == b.evicted && a.seen == b.seen && a.cursor == b.cursor && a.chunks == b.chunks
    && |a.slots| == |b.slots|
    && forall s | 0 <= s < |a.slots| :: SlotsAgree(a.slots[s], b.slots[s])
  }

  lemma AgreeSelf(a: Bank)
    ensures Agree(a, a)
  {
  }

  lemma RouteFitsAgree(c1: Config, a: Bank, c2: Config, b: Bank, assign: seq<nat>, keeps: map<nat, seq<nat>>)
    requires c1.SameLimits(c2) && Agree(a, b) && RouteFits(c1, a, assign, keeps)
    ensures RouteFits(c2, b, assign, keeps)
    ensures Agree(RouteFold(c1, a, assign, keeps), RouteFold(c2, b, assign, keeps))
  {
    forall s | 0 <= s < c2.mSlots ensures |Pick(a.win.pend, assign, s)| == |Pick(b.win.pend, assign, s)| {
      SamePickLength(a.win.pend, b.win.pend, assign, s);
    }
    forall s | 0 <= s < c2.mSlots && s in keeps
      ensures KeepFits(c2, b.slots[s], |Pick(b.win.pend, assign, s)|, keeps[s])
    {
      assert SlotsAgree(a.slots[s], b.slots[s]);
      assert KeepFits(c1, a.slots[s], |Pick(a.win.pend, assign, s)|, keeps[s]);
    }
    hide KeepFits, Pick;
    forall s | 0 <= s < c2.mSlots
      ensures SlotsAgree(RoutedSlot(c1, a, assign, keeps, s), RoutedSlot(c2, b, assign, keeps, s))
    {
      assert SlotsAgree(a.slots[s], b.slots[s]);
    }
  }

  /**
   * A follower in the leader's structure that replays the leader's log never faults, keeps tokens at
   * the same positions, and stays in the leader's structure.
   */
  lemma ReplayAgrees(c1: Config, a: Bank, x: seq<KV>, c2: Config, b: Bank, y: seq<KV>, log: seq<Op>)
    requires c1.SameLimits(c2) && |a.win.sink| <= c1.sink && |b.win.sink| <= c2.sink
    requires Agree(a, b) && |x| == |y| && Step(c1, a, x, log).Done?
    ensures Step(c2, b, y, log).Done?
    ensures Agree(Step(c1, a, x, log).value, Step(c2, b, y, log).value)
  {
    var p, q := Admitted(c1, a, x), Admitted(c2, b, y);
    assert Agree(p, q);
    hide Agree, Admit, RouteFits;
    AgreeLengths(p, q);
    if |p.win.pend| >= c1.routeChunk {
      RouteFitsAgree(c1, p, c2, q, log[p.cursor].assign, log[p.cursor].keeps);
    }
  }

  lemma AgreeLengths(a: Bank, b: Bank)
    requires Agree(a, b)
    ensures |a.win.pend| == |b.win.pend| && a.cursor == b.cursor
  {
  }

  // ---- streaming top-k ----------------------------------------------------

  /** The positions of the tokens routed to slot `s`, oldest first. */
  ghost function MemberPositions(cfg: Config, route: seq<nat>, s: nat): seq<nat> {
    Pick<nat>(Range(cfg.sink, |route|), route, s)
  }

  /**
   * `all` is the assignment-time score of every token ever routed to slot `s`, `kept` the indices
   * the slot still holds: the top `reps` of them, aligned with the stored scores and positions.
   */
  ghost predicate TopSlot(cfg: Config, slot: Slot, route: seq<nat>, s: nat, scores: seq<real>, all: seq<real>,
                          kept: seq<nat>)
  {
    && |all| == |MemberPositions(cfg, route, s)|
    && IsTopK(all, kept, cfg.reps)
    && scores == Select(all, kept)
    && slot.repPos == Select(MemberPositions(cfg, route, s), kept)
  }

  lemma MemberPositionsGrow(cfg: Config, route: seq<nat>, assign: seq<nat>, s: nat)
    ensures MemberPositions(cfg, route + assign, s)
         == MemberPositions(cfg, route, s) + Pick<nat>(Range(cfg.sink + |route|, |assign|), assign, s)
  {
    assert Range(cfg.sink, |route + assign|) == Range(cfg.sink, |route|) + Range(cfg.sink + |route|, |assign|);
    hide Pick;
    PickConcat(Range(cfg.sink, |route|), route, Range(cfg.sink + |route|, |assign|), assign, s);
  }

  /** Keeping the best of old and new keeps the best ever: streaming selection is offline selection. */
  lemma TopSlotStep(cfg: Config, slot: Slot, route: seq<nat>, s: nat, scores: seq<real>, all: seq<real>, kept: seq<nat>,
                    cut: seq<KV>, assign: seq<nat>, dist: seq<real>, keep: seq<nat>)
    requires TopSlot(cfg, slot, route, s, scores, all, kept)
    requires |assign| == |cut| == |dist| && Pick(cut, assign, s) != []
    requires |slot.reps| == |slot.repPos| && KeepFits(cfg, slot, |Pick(cut, assign, s)|, keep)
    requires IsTopK(scores + Pick(dist, assign, s), keep, cfg.reps)
    ensures var all' := all + Pick(dist, assign, s);
            var kept' := Survivors(kept, |all|, |Pick(dist, assign, s)|, keep);
            TopSlot(cfg, SlotStep(cfg, slot, cut, cfg.sink + |route|, assign, s, keep), route + assign, s,
                    Select(scores + Pick(dist, assign, s), keep), all', kept')
  {
    var added := Pick(dist, assign, s);
    SamePickLength(dist, cut, assign, s);
    RepPosStep(cfg, slot, route, s, all, kept, cut, assign, |added|, keep);
    IsTopKBounds(all, kept, cfg.reps);
    MemberPositionsGrow(cfg, route, assign, s);
    SamePickLength(cut, Range(cfg.sink + |route|, |assign|), assign, s);
    hide Pick, MemberPositions, IsTopK, Select, Survivors, Increasing, Absorb, SlotStep, KeepFits, Below;
    StreamingStep(all, kept, cfg.reps, added, keep);
    SurvivorsSelect(all, kept, added, keep);
  }

  lemma RepPosStep(cfg: Config, slot: Slot, route: seq<nat>, s: nat, all: seq<real>, kept: seq<nat>,
                   cut: seq<KV>, assign: seq<nat>, added: nat, keep: seq<nat>)
    requires |assign| == |cut| && Pick(cut, assign, s) != [] && added == |Pick(cut, assign, s)|
    requires KeepFits(cfg, slot, added, keep)
    requires |all| == |MemberPositions(cfg, route, s)| && Below(kept, |all|)
    requires slot.repPos == Select(MemberPositions(cfg, route, s), kept)
    ensures Below(Survivors(kept, |all|, added, keep), |MemberPositions(cfg, route + assign, s)|)
    ensures SlotStep(cfg, slot, cut, cfg.sink + |route|, assign, s, keep).repPos
         == Select(MemberPositions(cfg, route + assign, s), Survivors(kept, |all|, added, keep))
  {
    var pos := Pick<nat>(Range(cfg.sink + |route|, |cut|), assign, s);
    SamePickLength(cut, Range(cfg.sink + |route|, |cut|), assign, s);
    MemberPositionsGrow(cfg, route, assign, s);
    hide Pick, Absorb;
    SurvivorsSelect(MemberPositions(cfg, route, s), kept, pos, keep);
  }

  lemma TopSlotUntouched(cfg: Config, slot: Slot, route: seq<nat>, s: nat, scores: seq<real>, all: seq<real>,
                         kept: seq<nat>, assign: seq<nat>)
    requires TopSlot(cfg, slot, route, s, scores, all, kept) && s !in assign
    ensures TopSlot(cfg, slot, route + assign, s, scores, all, kept)
  {
    MemberPositionsGrow(cfg, route, assign, s);
    PickedSomething(Range(cfg.sink + |route|, |assign|), assign, s);
    assert MemberPositions(cfg, route, s) + [] == MemberPositions(cfg, route, s);
  }

  /** The stored scores are, as a multiset, any offline selection of the `reps` best of all scores. */
  lemma StreamingIsOffline(cfg: Config, slot: Slot, route: seq<nat>, s: nat, scores: seq<real>, all: seq<real>,
                           kept: seq<nat>, offline: seq<nat>)
    requires TopSlot(cfg, slot, route, s, scores, all, kept) && IsTopK(all, offline, cfg.reps)
    ensures multiset(scores) == multiset(Select(all, offline))
    ensures |scores| == |slot.repPos|
  {
    TopKUnique(all, kept, offline, cfg.reps);
  }
}
