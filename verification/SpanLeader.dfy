/** The leader side of RoutedSpanLayer: span features, slot assignment and retention. */
module SpanLeader {
  import opened Lists
  import opened Tokens
  import opened Features
  import opened SpanSplit
  import opened SpanRetention
  import opened RoutedSpanSpec
  import opened SpanBounds

  /** What only the leader keeps: centroids, open slots, the running mean, and the features of kept spans. */
  datatype Leader = Leader(cent: seq<Vec>, active: nat, gmean: KV, gcnt: nat, feats: seq<seq<Vec>>)

  function FreshLeader(cfg: Config): Leader {
    Leader([], 0, Zero(cfg.dim), 0, seq(cfg.mSlots, _ => []))
  }

  /** The direction of the value of one of the span's own tokens. */
  ghost predicate FeatureOf(cfg: Config, sp: Span, f: Vec) {
    exists t :: 0 <= t < |sp.tokens| && f == cfg.unit(sp.tokens[t].value)
  }

  ghost predicate OwnFeatures(cfg: Config, feats: seq<Vec>, spans: seq<Span>) {
    |feats| == |spans| && forall i | 0 <= i < |feats| :: FeatureOf(cfg, spans[i], feats[i])
  }

  /** Every kept span has its own feature, pairwise `dupFloor` apart in every slot; unopened slots hold nothing. */
  ghost predicate LeadOk(cfg: Config, lead: Leader, b: Bank) {
    && |lead.feats| == |b.slots| == cfg.mSlots
    && (if lead.cent == [] then lead.active == 0 else |lead.cent| == cfg.mSlots && 1 <= lead.active <= cfg.mSlots)
    && (forall s | 0 <= s < cfg.mSlots ::
        OwnFeatures(cfg, lead.feats[s], b.slots[s].spans) && Apart(cfg.dupFloor, lead.feats[s]))
    && forall s | lead.active <= s < cfg.mSlots :: b.slots[s].spans == []
  }

  /**
   * The feature of a span is the value of its most globally novel token: the one whose value points the
   * way of the mean least.
   */
  ghost predicate IsSpanFeature(cfg: Config, cut: seq<KV>, mean: Vec, b: (nat, nat), f: Vec) {
    && b.0 < b.1 <= |cut|
    && exists t | b.0 <= t < b.1 :: f == cfg.unit(cut[t].value)
         && forall u | b.0 <= u < b.1 ::
              Dot(cfg.unit(cut[t].value), cfg.unit(mean)) <= Dot(cfg.unit(cut[u].value), cfg.unit(mean))
  }

  method SpanFeatures(cfg: Config, lead: Leader, cut: seq<KV>, bounds: Bounds) returns (feats: seq<Vec>, lead': Leader)
    requires cut != [] && InRange(bounds, |cut|)
    ensures lead' == lead.(gmean := Absorb(cfg.dim, lead.gmean, lead.gcnt, cut), gcnt := lead.gcnt + |cut|)
    ensures |feats| == |bounds|
    ensures forall j | 0 <= j < |bounds| :: IsSpanFeature(cfg, cut, lead'.gmean.value, bounds[j], feats[j])
  {
    hide Absorb, Dot;
    lead' := lead.(gmean := Absorb(cfg.dim, lead.gmean, lead.gcnt, cut), gcnt := lead.gcnt + |cut|);
    var mean := lead'.gmean.value;
    feats := [];
    while |feats| < |bounds|
      invariant |feats| <= |bounds|
      invariant forall j | 0 <= j < |feats| :: IsSpanFeature(cfg, cut, mean, bounds[j], feats[j])
    {
      var (a, b) := bounds[|feats|];
      var way := cfg.unit(mean);
      var nov := seq(b - a, i requires 0 <= i < b - a => 1.0 - Dot(cfg.unit(cut[a + i].value), way));
      var best := ArgBest(nov);
      forall u | a <= u < b ensures Dot(cfg.unit(cut[a + best].value), way) <= Dot(cfg.unit(cut[u].value), way) {
        assert nov[u - a] <= nov[best];
      }
      feats := feats + [cfg.unit(cut[a + best].value)];
    }
  }

  // ---- slot assignment ----------------------------------------------------

  datatype Clusters = Clusters(cent: seq<Vec>, active: nat)

  ghost predicate Nearest(cfg: Config, c: Clusters, f: Vec, near: nat) {
    && c.active <= |c.cent| && near < c.active
    && forall s | 0 <= s < c.active :: Dot(f, cfg.unit(c.cent[s])) <= Dot(f, cfg.unit(c.cent[near]))
  }

  /**
   * A span joins its nearest open slot, whose centroid drifts towards its feature, unless it is novel and a
   * slot is still unopened.
   */
  ghost predicate AssignStep(cfg: Config, c: Clusters, f: Vec, slot: nat, c': Clusters) {
    && |c.cent| == cfg.mSlots
    && exists near: nat :: Nearest(cfg, c, f, near) &&
         if Dot(f, cfg.unit(c.cent[near])) < cfg.novelty && c.active < cfg.mSlots
         then slot == c.active && c' == Clusters(c.cent[slot := f], c.active + 1)
         else slot == near && |c'.cent| == |c.cent| && c' == Clusters(c.cent[slot := c'.cent[slot]], c.active)
              && Drifts(cfg.momentum, c.cent[slot], f, c'.cent[slot])
  }

  method AssignOne(cfg: Config, c: Clusters, f: Vec) returns (slot: nat, c': Clusters)
    requires |c.cent| == cfg.mSlots && 1 <= c.active <= cfg.mSlots
    ensures AssignStep(cfg, c, f, slot, c')
    ensures |c'.cent| == cfg.mSlots && c.active <= c'.active <= cfg.mSlots && slot < c'.active
    ensures forall s | 0 <= s < cfg.mSlots && s != slot :: c'.cent[s] == c.cent[s]
  {
    hide Dot, Blend, Drifts;
    var sims := seq(c.active, s requires 0 <= s < c.active => Dot(f, cfg.unit(c.cent[s])));
    var near := ArgBest(sims);
    assert Nearest(cfg, c, f, near) by {
      forall s | 0 <= s < c.active ensures Dot(f, cfg.unit(c.cent[s])) <= Dot(f, cfg.unit(c.cent[near])) {
        assert sims[s] <= sims[near];
      }
    }
    if Dot(f, cfg.unit(c.cent[near])) < cfg.novelty && c.active < cfg.mSlots {
      slot := c.active;
      c' := Clusters(c.cent[slot := f], c.active + 1);
    } else {
      slot := near;
      c' := Clusters(c.cent[slot := Blend(cfg.momentum, c.cent[slot], f)], c.active);
    }
  }

  /** Spans are assigned one after another, each seeing the centroids its predecessors left. */
  method AssignSpans(cfg: Config, feats: seq<Vec>, c: Clusters)
    returns (assign: seq<nat>, c': Clusters, ghost trace: seq<Clusters>)
    requires |c.cent| == cfg.mSlots && 1 <= c.active <= cfg.mSlots
    ensures |assign| == |feats| && |trace| == |feats| + 1 && trace[0] == c && trace[|feats|] == c'
    ensures forall j | 0 <= j < |feats| :: AssignStep(cfg, trace[j], feats[j], assign[j], trace[j + 1])
    ensures |c'.cent| == cfg.mSlots && c.active <= c'.active <= cfg.mSlots && Below(assign, c'.active)
    ensures forall s | 0 <= s < cfg.mSlots && s !in assign :: c'.cent[s] == c.cent[s]
  {
    hide AssignStep;
    assign, c', trace := [], c, [c];
    while |assign| < |feats|
      invariant |assign| <= |feats| && |trace| == |assign| + 1 && trace[0] == c && trace[|assign|] == c'
      invariant forall j | 0 <= j < |assign| :: AssignStep(cfg, trace[j], feats[j], assign[j], trace[j + 1])
      invariant |c'.cent| == cfg.mSlots && c.active <= c'.active <= cfg.mSlots && Below(assign, c'.active)
      invariant forall s | 0 <= s < cfg.mSlots && s !in assign :: c'.cent[s] == c.cent[s]
    {
      var slot, next := AssignOne(cfg, c', feats[|assign|]);
      assign, c', trace := assign + [slot], next, trace + [next];
    }
  }

  /** Where the centroid of an open slot ends: drifted through the features of the spans it got, in their order. */
  lemma {:induction false} CentroidsDrift(cfg: Config, feats: seq<Vec>, assign: seq<nat>, trace: seq<Clusters>, s: nat)
    requires |assign| == |feats| && |trace| == |feats| + 1 && s < trace[0].active <= |trace[0].cent|
    requires forall j | 0 <= j < |feats| :: AssignStep(cfg, trace[j], feats[j], assign[j], trace[j + 1])
    ensures s < trace[|feats|].active <= |trace[|feats|].cent|
    ensures Drifted(cfg.momentum, trace[0].cent[s], Pick(feats, assign, s), trace[|feats|].cent[s])
  {
    hide AssignStep, Drifted;
    if feats == [] {
      NotDrifted(cfg.momentum, trace[0].cent[s]);
    } else {
      var n := |feats| - 1;
      CentroidsDrift(cfg, feats[..n], assign[..n], trace[..n + 1], s);
      StepDrifts(cfg, trace[n], feats[n], assign[n], trace[n + 1], s);
      if assign[n] == s {
        DriftedNext(cfg.momentum, trace[0].cent[s], Pick(feats[..n], assign[..n], s), trace[n].cent[s], feats[n],
                    trace[n + 1].cent[s]);
      } else {
        assert Pick(feats, assign, s) == Pick(feats[..n], assign[..n], s);
      }
    }
  }

  lemma StepDrifts(cfg: Config, c: Clusters, f: Vec, slot: nat, c': Clusters, s: nat)
    requires AssignStep(cfg, c, f, slot, c') && s < c.active <= |c.cent|
    ensures s < c'.active <= |c'.cent|
    ensures if slot == s then Drifts(cfg.momentum, c.cent[s], f, c'.cent[s]) else c'.cent[s] == c.cent[s]
  {
    hide Drifts, Dot;
  }

  /** The clusters the assignment starts from: the old ones, or a farthest-point start. */
  method OpenSlots(cfg: Config, lead: Leader, feats: seq<Vec>) returns (c: Clusters)
    requires feats != [] && cfg.mSlots >= 1
    requires if lead.cent == [] then lead.active == 0 else |lead.cent| == cfg.mSlots && 1 <= lead.active <= cfg.mSlots
    ensures |c.cent| == cfg.mSlots && 1 <= c.active <= cfg.mSlots && lead.active <= c.active
    ensures lead.cent != [] ==> c == Clusters(lead.cent, lead.active)
    ensures lead.cent == [] ==> c.active == Min(cfg.mSlots, |feats|) && FarthestFirst(feats, c.cent[..c.active])
  {
    if lead.cent != [] {
      return Clusters(lead.cent, lead.active);
    }
    hide FarthestFirst;
    var n := Min(cfg.mSlots, |feats|);
    var chosen := FarthestPoint(feats, n);
    var zero: Vec := seq(|feats[0]|, _ => 0.0);
    c := Clusters(chosen + seq(cfg.mSlots - n, _ => zero), n);
    assert c.cent[..n] == chosen;
  }

  // ---- retention ----------------------------------------------------------

  function Widths(bounds: Bounds): (r: seq<nat>)
    ensures |r| == |bounds| && forall j | 0 <= j < |bounds| :: r[j] == Width(bounds[j])
  {
    seq(|bounds|, j requires 0 <= j < |bounds| => Width(bounds[j]))
  }

  /** `keep` is a complete greedy selection `sel`, sorted. */
  ghost predicate IsSorted(cfg: RetainConfig, xs: seq<Vec>, lens: seq<nat>, sel: seq<nat>, keep: seq<nat>)
    requires |xs| == |lens| && Below(keep, |xs|)
  {
    && GreedyRun(cfg, xs, lens, sel) && Stopped(cfg, xs, lens, sel)
    && |keep| == |sel| && (forall x :: x in keep <==> x in sel) && Used(lens, keep) == Used(lens, sel)
  }

  /** What the leader does with the spans of slot `s`: greedy retention over old and new ones. */
  ghost predicate SlotRetained(cfg: Config, feats: seq<Vec>, spans: seq<Span>, fresh': seq<Vec>, added: Bounds,
                               touched: bool, keep: seq<nat>, feats': seq<Vec>)
  {
    if touched then
      var xs, lens := feats + fresh', Lengths(spans) + Widths(added);
      && |xs| == |lens| && Increasing(keep) && Below(keep, |xs|) && keep != []
      && (exists sel :: IsSorted(RetainConfig(cfg.budget, cfg.dupFloor, cfg.unit), xs, lens, sel, keep))
      && feats' == Select(xs, keep) && Apart(cfg.dupFloor, feats')
    else
      feats' == feats
  }

  lemma KeptApart(cfg: RetainConfig, xs: seq<Vec>, lens: seq<nat>, sel: seq<nat>, keep: seq<nat>)
    requires cfg.dupFloor > -1.0 && GreedyRun(cfg, xs, lens, sel)
    requires Increasing(keep) && Below(keep, |xs|) && forall x :: x in keep <==> x in sel
    ensures Apart(cfg.dupFloor, Select(xs, keep))
  {
    SelectionIsApart(cfg, xs, lens, sel);
    forall i, j | 0 <= i < |keep| && 0 <= j < |keep| && i != j
      ensures Distance(xs[keep[i]], xs[keep[j]]) >= cfg.dupFloor
    {
      assert keep[i] in sel && keep[j] in sel;
      var a :| 0 <= a < |sel| && sel[a] == keep[i];
      var b :| 0 <= b < |sel| && sel[b] == keep[j];
    }
  }

  method RetainSlot(cfg: Config, feats: seq<Vec>, spans: seq<Span>, more: seq<Vec>, added: Bounds)
    returns (keep: seq<nat>, feats': seq<Vec>)
    requires cfg.Ok() && |feats| == |spans| && |more| == |added| > 0
    requires (forall i | 0 <= i < |spans| :: spans[i].pos != []) && forall j | 0 <= j < |added| ::
      added[j].0 < added[j].1
    ensures SlotRetained(cfg, feats, spans, more, added, true, keep, feats')
  {
    var xs, lens := feats + more, Lengths(spans) + Widths(added);
    hide GreedyRun, Stopped, Used;
    var retain := RetainConfig(cfg.budget, cfg.dupFloor, cfg.unit);
    var sel := Greedy(retain, xs, lens);
    RunBasics(retain, xs, lens, sel);
    SelectionIsApart(retain, xs, lens, sel);
    keep := SortSelection(lens, sel);
    KeptApart(retain, xs, lens, sel, keep);
    assert IsSorted(retain, xs, lens, sel, keep);
    hide Apart;
    feats' := Select(xs, keep);
  }

  lemma RunBasics(cfg: RetainConfig, xs: seq<Vec>, lens: seq<nat>, sel: seq<nat>)
    requires GreedyRun(cfg, xs, lens, sel)
    ensures sel != [] && Below(sel, |lens|)
  {
  }

  /** A retained slot stays within its budget, unless it is a single span. */
  lemma RetainedBounded(cfg: Config, feats: seq<Vec>, spans: seq<Span>, more: seq<Vec>, added: Bounds, keep: seq<nat>,
                        feats': seq<Vec>)
    requires SlotRetained(cfg, feats, spans, more, added, true, keep, feats')
    ensures Below(keep, |Lengths(spans) + Widths(added)|)
    ensures |keep| == 1 || Used(Lengths(spans) + Widths(added), keep) <= cfg.budget
  {
    hide Apart, IsSorted, Used, Increasing;
    var xs, lens := feats + more, Lengths(spans) + Widths(added);
    var sel :| IsSorted(RetainConfig(cfg.budget, cfg.dupFloor, cfg.unit), xs, lens, sel, keep);
    SortedBounded(cfg, xs, lens, sel, keep);
  }

  lemma SortedBounded(cfg: Config, xs: seq<Vec>, lens: seq<nat>, sel: seq<nat>, keep: seq<nat>)
    requires |xs| == |lens| && Below(keep, |xs|)
    requires IsSorted(RetainConfig(cfg.budget, cfg.dupFloor, cfg.unit), xs, lens, sel, keep)
    ensures |keep| == 1 || Used(lens, keep) <= cfg.budget
  {
    hide GreedyRun, Stopped, Used;
    var retain := RetainConfig(cfg.budget, cfg.dupFloor, cfg.unit);
    RunBasics(retain, xs, lens, sel);
    WithinBudget(retain, xs, lens, sel);
  }

  /** Retention in every slot that got a span; the others keep what they have. */
  ghost predicate AllRetained(cfg: Config, feats: seq<seq<Vec>>, slots: seq<SpanSlot>, spanFeats: seq<Vec>,
                              bounds: Bounds, assign: seq<nat>, keeps: map<nat, seq<nat>>, feats': seq<seq<Vec>>)
  {
    && |feats| == |slots| == |feats'| == cfg.mSlots && |spanFeats| == |bounds| == |assign|
    && keeps.Keys == (set s | s in assign)
    && forall s | 0 <= s < cfg.mSlots :: RetainedAt(cfg, feats, slots, spanFeats, bounds, assign, keeps, feats', s)
  }

  ghost predicate RetainedAt(cfg: Config, feats: seq<seq<Vec>>, slots: seq<SpanSlot>, spanFeats: seq<Vec>,
                             bounds: Bounds, assign: seq<nat>, keeps: map<nat, seq<nat>>, feats': seq<seq<Vec>>, s: nat)
    requires |feats| == |slots| == |feats'| == cfg.mSlots && |spanFeats| == |bounds| == |assign| && s < cfg.mSlots
  {
    SlotRetained(cfg, feats[s], slots[s].spans, Pick(spanFeats, assign, s), Pick<(nat, nat)>(bounds, assign, s),
                 s in keeps, if s in keeps then keeps[s] else [], feats'[s])
  }

  lemma PickedPositive(bounds: Bounds, assign: seq<nat>, s: nat, n: nat)
    requires |assign| == |bounds| && Tiled(bounds, n)
    ensures var r: Bounds := Pick(bounds, assign, s);
            forall j | 0 <= j < |r| :: r[j].0 < r[j].1
  {
    PickedInOrder(bounds, assign, s, n);
    hide Pick;
    assert Ordered(Pick(bounds, assign, s), n);
  }

  method RetainSpans(cfg: Config, feats: seq<seq<Vec>>, slots: seq<SpanSlot>, spanFeats: seq<Vec>, bounds: Bounds,
                     assign: seq<nat>, ghost n: nat)
    returns (keeps: map<nat, seq<nat>>, feats': seq<seq<Vec>>)
    requires cfg.Ok() && |feats| == |slots| == cfg.mSlots && |spanFeats| == |bounds| == |assign|
    requires Tiled(bounds, n) && Below(assign, cfg.mSlots)
    requires forall s | 0 <= s < cfg.mSlots :: |feats[s]| == |slots[s].spans|
    requires forall s, i | 0 <= s < cfg.mSlots && 0 <= i < |slots[s].spans| :: slots[s].spans[i].pos != []
    ensures AllRetained(cfg, feats, slots, spanFeats, bounds, assign, keeps, feats')
  {
    hide SlotRetained, Pick, Tiled, Below;
    keeps, feats' := map[], feats;
    var s := 0;
    while s < cfg.mSlots
      invariant 0 <= s <= cfg.mSlots && |feats'| == |feats|
      invariant forall t :: t in keeps <==> t in assign && t < s
      invariant forall t | 0 <= t < s :: RetainedAt(cfg, feats, slots, spanFeats, bounds, assign, keeps, feats', t)
      invariant forall t | s <= t < cfg.mSlots :: feats'[t] == feats[t]
    {
      ghost var before, older := keeps, feats';
      if s in assign {
        PickedSome(bounds, assign, s);
        PickedPositive(bounds, assign, s, n);
        SameSize(spanFeats, bounds, assign, s);
        var keep, kept := RetainSlot(cfg, feats[s], slots[s].spans, Pick(spanFeats, assign, s),
                                     Pick<(nat, nat)>(bounds, assign, s));
        keeps := keeps[s := keep];
        feats' := feats'[s := kept];
      } else {
        NothingRetained(cfg, feats[s], slots[s].spans, Pick(spanFeats, assign, s), Pick<(nat, nat)>(bounds, assign, s));
      }
      forall t | 0 <= t < s ensures RetainedAt(cfg, feats, slots, spanFeats, bounds, assign, keeps, feats', t) {
        assert RetainedAt(cfg, feats, slots, spanFeats, bounds, assign, before, older, t);
      }
      s := s + 1;
    }
    KeysAreAssigned(cfg, assign, keeps);
  }

  lemma SameSize(spanFeats: seq<Vec>, bounds: Bounds, assign: seq<nat>, s: nat)
    requires |spanFeats| == |bounds| == |assign|
    ensures |Pick(spanFeats, assign, s)| == |Pick<(nat, nat)>(bounds, assign, s)|
  {
    if bounds != [] {
      SameSize(spanFeats[..|bounds| - 1], bounds[..|bounds| - 1], assign[..|bounds| - 1], s);
    }
  }

  lemma NothingRetained(cfg: Config, feats: seq<Vec>, spans: seq<Span>, more: seq<Vec>, added: Bounds)
    ensures SlotRetained(cfg, feats, spans, more, added, false, [], feats)
  {
  }

  lemma KeysAreAssigned(cfg: Config, assign: seq<nat>, keeps: map<nat, seq<nat>>)
    requires Below(assign, cfg.mSlots) && forall t :: t in keeps <==> t in assign && t < cfg.mSlots
    ensures keeps.Keys == (set s | s in assign)
  {
    forall t ensures t in keeps.Keys <==> t in (set s | s in assign) {
      if t in assign {
        var i :| 0 <= i < |assign| && assign[i] == t;
      }
    }
  }

  // ---- the decision fits, is bounded, and keeps the leader's record --------

  lemma SlotDecisionOk(cfg: Config, feats: seq<Vec>, slot: SpanSlot, more: seq<Vec>, cut: seq<KV>, start: nat,
                       bounds: Bounds, assign: seq<nat>, s: nat, keep: seq<nat>, feats': seq<Vec>)
    requires |assign| == |bounds| && InRange(bounds, |cut|) && OwnFeatures(cfg, feats, slot.spans)
    requires OwnFeatures(cfg, more, NewSpans(cut, start, bounds, assign, s))
    requires SlotRetained(cfg, feats, slot.spans, more, Pick<(nat, nat)>(bounds, assign, s), true, keep, feats')
    requires forall i | 0 <= i < |slot.spans| :: |slot.spans[i].pos| <= cfg.Split().Limit()
    requires forall j | 0 <= j < |bounds| :: bounds[j].1 - bounds[j].0 <= cfg.Split().Limit()
    ensures KeepFits(slot, |Pick<(nat, nat)>(bounds, assign, s)|, keep)
    ensures var r := SlotStep(cfg, slot, cut, start, bounds, assign, s, keep);
            SlotBounded(cfg, r.spans) && OwnFeatures(cfg, feats', r.spans) && Apart(cfg.dupFloor, feats')
  {
    hide Pick, Apart, GreedyRun, Stopped, Used, Increasing, NewSpans, AbsorbSpans, SlotBounded, InRange, SpanPositions,
         SpanTokens, SlotStep, FeatureOf;
    var added: Bounds := Pick(bounds, assign, s);
    NewSpansCount(cut, start, bounds, assign, s);
    var spans := slot.spans + NewSpans(cut, start, bounds, assign, s);
    CandidateLengths(cfg, slot.spans, cut, start, bounds, assign, s);
    PickedWidths(bounds, assign, s, cfg.Split().Limit());
    RetainedBounded(cfg, feats, slot.spans, more, added, keep, feats');
    SelectedBounded(cfg, spans, keep);
    SelectedFeatures(cfg, feats + more, spans, keep);
    SlotStepParts(cfg, slot, cut, start, bounds, assign, s, keep);
  }

  lemma SelectedFeatures(cfg: Config, feats: seq<Vec>, spans: seq<Span>, keep: seq<nat>)
    requires OwnFeatures(cfg, feats, spans) && Below(keep, |spans|)
    ensures OwnFeatures(cfg, Select(feats, keep), Select(spans, keep))
  {
    hide FeatureOf;
  }

  /** The features routed to slot `s` are those of the spans routed to it. */
  lemma {:induction false} PickedFeatures(cfg: Config, cut: seq<KV>, mean: Vec, start: nat, bounds: Bounds,
                                          feats: seq<Vec>, assign: seq<nat>, s: nat)
    requires |assign| == |bounds| && InRange(bounds, |cut|) && Featured(cfg, cut, mean, bounds, feats)
    ensures OwnFeatures(cfg, Pick(feats, assign, s), NewSpans(cut, start, bounds, assign, s))
  {
    hide FeatureOf, NewSpans;
    if bounds == [] {
      NewSpansCount(cut, start, bounds, assign, s);
    } else {
      var n := |bounds| - 1;
      PickedFeatures(cfg, cut, mean, start, bounds[..n], feats[..n], assign[..n], s);
      NewSpansSnoc(cut, start, bounds, assign, s);
      OwnFeature(cfg, cut, mean, start, bounds[n], feats[n]);
    }
  }

  lemma OwnFeature(cfg: Config, cut: seq<KV>, mean: Vec, start: nat, b: (nat, nat), f: Vec)
    requires IsSpanFeature(cfg, cut, mean, b, f)
    ensures FeatureOf(cfg, Span(cut[b.0..b.1], Range(start + b.0, b.1 - b.0)), f)
  {
    hide Dot;
    var t :| b.0 <= t < b.1 && f == cfg.unit(cut[t].value);
    assert cut[b.0..b.1][t - b.0] == cut[t];
  }

  lemma CandidateLengths(cfg: Config, older: seq<Span>, cut: seq<KV>, start: nat, bounds: Bounds, assign: seq<nat>,
                         s: nat)
    requires |assign| == |bounds| && InRange(bounds, |cut|)
    requires forall i | 0 <= i < |older| :: |older[i].pos| <= cfg.Split().Limit()
    requires forall j | 0 <= j < |bounds| :: bounds[j].1 - bounds[j].0 <= cfg.Split().Limit()
    ensures var spans := older + NewSpans(cut, start, bounds, assign, s);
            && Lengths(spans) == Lengths(older) + Widths(Pick(bounds, assign, s))
            && forall i | 0 <= i < |spans| :: |spans[i].pos| <= cfg.Split().Limit()
  {
    PickInRange(bounds, assign, s, |cut|);
    PickedWidths(bounds, assign, s, cfg.Split().Limit());
    hide Pick;
    var picked: Bounds := Pick(bounds, assign, s);
    var added := NewSpans(cut, start, bounds, assign, s);
    forall i | 0 <= i < |added| ensures |added[i].pos| == Width(picked[i]) <= cfg.Split().Limit() {
      assert added[i] == Cut(cut, start, picked)[i];
    }
    assert Lengths(added) == Widths(picked);
    assert Lengths(older + added) == Lengths(older) + Lengths(added);
  }

  lemma {:induction false} PickedWidths(bounds: Bounds, assign: seq<nat>, s: nat, limit: nat)
    requires |assign| == |bounds| && forall j | 0 <= j < |bounds| :: bounds[j].1 - bounds[j].0 <= limit
    ensures AllWithin(Pick(bounds, assign, s), limit)
  {
    if bounds == [] {
    } else {
      var n := |bounds| - 1;
      PickedWidths(bounds[..n], assign[..n], s, limit);
      WithinSnoc(Pick(bounds[..n], assign[..n], s), bounds[n], limit);
    }
  }

  ghost predicate AllWithin(bounds: Bounds, limit: nat) {
    forall j | 0 <= j < |bounds| :: Width(bounds[j]) <= limit
  }

  lemma WithinSnoc(bounds: Bounds, b: (nat, nat), limit: nat)
    requires AllWithin(bounds, limit) && b.1 - b.0 <= limit
    ensures AllWithin(bounds + [b], limit)
  {
  }

  lemma SlotOfDecision(cfg: Config, lead: Leader, a: Bank, mean: Vec, spanFeats: seq<Vec>, bounds: Bounds,
                       assign: seq<nat>, keeps: map<nat, seq<nat>>, routed: nat, feats': seq<seq<Vec>>, s: nat)
    requires cfg.Ok() && LeadOk(cfg, lead, a) && s < cfg.mSlots && s in keeps && |assign| == |bounds|
      && InRange(bounds, |a.win.pend|)
    requires SlotBounded(cfg, a.slots[s].spans) && Featured(cfg, a.win.pend, mean, bounds, spanFeats)
    requires AllRetained(cfg, lead.feats, a.slots, spanFeats, bounds, assign, keeps, feats')
    requires forall j | 0 <= j < |bounds| :: bounds[j].1 - bounds[j].0 <= cfg.Split().Limit()
    ensures KeepFits(a.slots[s], |Pick<(nat, nat)>(bounds, assign, s)|, keeps[s])
    ensures var r := SlotStep(cfg, a.slots[s], a.win.pend, cfg.sink + a.evicted, bounds, assign, s, keeps[s]);
            SlotBounded(cfg, r.spans) && OwnFeatures(cfg, feats'[s], r.spans) && Apart(cfg.dupFloor, feats'[s])
  {
    hide SlotRetained, Pick, InRange, SlotStep, Apart, KeepFits, OwnFeatures, NewSpans, Featured, SlotBounded;
    assert RetainedAt(cfg, lead.feats, a.slots, spanFeats, bounds, assign, keeps, feats', s);
    assert SlotRetained(cfg, lead.feats[s], a.slots[s].spans, Pick(spanFeats, assign, s),
                        Pick<(nat, nat)>(bounds, assign, s), true, keeps[s], feats'[s]);
    PickedFeatures(cfg, a.win.pend, mean, cfg.sink + a.evicted, bounds, spanFeats, assign, s);
    ShortSpans(cfg, a.slots[s].spans);
    SlotDecisionOk(cfg, lead.feats[s], a.slots[s], Pick(spanFeats, assign, s), a.win.pend, cfg.sink + a.evicted, bounds,
                   assign, s, keeps[s], feats'[s]);
  }

  lemma ShortSpans(cfg: Config, spans: seq<Span>)
    requires SlotBounded(cfg, spans)
    ensures forall i | 0 <= i < |spans| :: |spans[i].pos| <= cfg.Split().Limit()
  {
  }

  /** The leader's decision fits its own state, respects every bound, and its record follows the slots. */
  lemma DecisionOk(cfg: Config, mask: Option<seq<bool>>, lead: Leader, a: Bank, spanFeats: seq<Vec>, bounds: Bounds,
                   assign: seq<nat>, keeps: map<nat, seq<nat>>, routed: nat, lead': Leader)
    requires cfg.Ok() && LeadOk(cfg, lead, a) && a.win.pend != []
    requires forall s | 0 <= s < |a.slots| :: SlotBounded(cfg, a.slots[s].spans)
    requires SplitOk(cfg.Split(), mask, cfg.sink + a.evicted, |a.win.pend|, bounds, routed) && routed > 0
    requires |lead'.cent| == cfg.mSlots && 1 <= lead'.active <= cfg.mSlots && lead.active <= lead'.active
    requires Below(assign, lead'.active)
    requires AllRetained(cfg, lead.feats, a.slots, spanFeats, bounds, assign, keeps, lead'.feats)
    requires Featured(cfg, a.win.pend, lead'.gmean.value, bounds, spanFeats)
    ensures OpBounded(cfg, mask, a, bounds, assign, keeps, routed)
    ensures LeadOk(cfg, lead', RouteFold(cfg, a, bounds, assign, keeps, routed))
  {
    hide Pick, Tiled, RoutedPart, EndsAtBreaks, IsBreak, SlotRetained, SlotStep, Apart, SlotBounded, KeepFits,
         RetainedAt, OwnFeatures, Featured;
    SplitParts(cfg.Split(), mask, cfg.sink + a.evicted, |a.win.pend|, bounds, routed);
    assert InRange(bounds, |a.win.pend|);
    hide InRange, SpanOk;
    forall s | 0 <= s < cfg.mSlots && s in keeps
      ensures KeepFits(a.slots[s], |Pick<(nat, nat)>(bounds, assign, s)|, keeps[s])
    {
      SlotOfDecision(cfg, lead, a, lead'.gmean.value, spanFeats, bounds, assign, keeps, routed, lead'.feats, s);
    }
    forall s | 0 <= s < cfg.mSlots
      ensures var r := RoutedSlot(cfg, a, bounds, assign, keeps, routed, s);
              && SlotBounded(cfg, r.spans) && OwnFeatures(cfg, lead'.feats[s], r.spans)
                 && Apart(cfg.dupFloor, lead'.feats[s])
              && (lead'.active <= s ==> r.spans == [])
    {
      if s in keeps {
        assert s in assign;
        SlotOfDecision(cfg, lead, a, lead'.gmean.value, spanFeats, bounds, assign, keeps, routed, lead'.feats, s);
      } else {
        UntouchedFeats(cfg, lead, a, spanFeats, bounds, assign, keeps, lead'.feats, s);
      }
    }
  }

  lemma UntouchedFeats(cfg: Config, lead: Leader, a: Bank, spanFeats: seq<Vec>, bounds: Bounds, assign: seq<nat>,
                       keeps: map<nat, seq<nat>>, feats': seq<seq<Vec>>, s: nat)
    requires AllRetained(cfg, lead.feats, a.slots, spanFeats, bounds, assign, keeps, feats') && s < cfg.mSlots
      && s !in keeps
    ensures feats'[s] == lead.feats[s]
  {
    hide Pick;
    assert RetainedAt(cfg, lead.feats, a.slots, spanFeats, bounds, assign, keeps, feats', s);
  }

  lemma SplitParts(cfg: SplitConfig, mask: Option<seq<bool>>, start: nat, total: nat, spans: Bounds, routed: nat)
    requires cfg.Ok() && SplitOk(cfg, mask, start, total, spans, routed)
    ensures Tiled(spans, routed) && RoutedPart(cfg, mask, start, total, routed) && routed <= total
    ensures forall j | 0 <= j < |spans| :: spans[j].0 < spans[j].1 <= total && spans[j].1 - spans[j].0 <= cfg.Limit()
  {
    hide IsBreak, EndsAtBreaks;
    forall j | 0 <= j < |spans| ensures spans[j].0 < spans[j].1 <= total && spans[j].1 - spans[j].0 <= cfg.Limit() {
      assert SpanOk(cfg, mask, start, total, spans[j]);
      TiledBelow(spans, routed, j);
    }
  }

  /** Every span has its feature. */
  ghost predicate Featured(cfg: Config, cut: seq<KV>, mean: Vec, bounds: Bounds, feats: seq<Vec>) {
    |feats| == |bounds| && forall j | 0 <= j < |bounds| :: IsSpanFeature(cfg, cut, mean, bounds[j], feats[j])
  }

  /** The spans were assigned one after another, from the old clusters or a farthest-point start. */
  ghost predicate AssignedInTurn(cfg: Config, lead: Leader, feats: seq<Vec>, assign: seq<nat>, trace: seq<Clusters>,
                                 last: Clusters)
  {
    && |assign| == |feats| && |trace| == |feats| + 1 && trace[|feats|] == last
    && (if lead.cent != [] then trace[0] == Clusters(lead.cent, lead.active)
        else trace[0].active == Min(cfg.mSlots, |feats|) <= |trace[0].cent|
             && FarthestFirst(feats, trace[0].cent[..trace[0].active]))
    && forall j | 0 <= j < |feats| :: AssignStep(cfg, trace[j], feats[j], assign[j], trace[j + 1])
  }

  /** `_route_decisions_span`: split, featurise, assign, retain. */
  method DecideSpans(cfg: Config, mask: Option<seq<bool>>, lead: Leader, a: Bank)
    returns (bounds: Bounds, assign: seq<nat>, keeps: map<nat, seq<nat>>, routed: nat, lead': Leader,
             ghost feats: seq<Vec>, ghost trace: seq<Clusters>)
    requires cfg.Ok() && LeadOk(cfg, lead, a) && a.win.pend != []
    requires forall s | 0 <= s < |a.slots| :: SlotBounded(cfg, a.slots[s].spans)
    requires forall s, i | 0 <= s < |a.slots| && 0 <= i < |a.slots[s].spans| :: a.slots[s].spans[i].pos != []
    ensures OpBounded(cfg, mask, a, bounds, assign, keeps, routed)
    ensures SplitOk(cfg.Split(), mask, cfg.sink + a.evicted, |a.win.pend|, bounds, routed)
    ensures LeadOk(cfg, lead', RouteFold(cfg, a, bounds, assign, keeps, routed))
    ensures Featured(cfg, a.win.pend, lead'.gmean.value, bounds, feats)
    ensures lead'.gmean == Absorb(cfg.dim, lead.gmean, lead.gcnt, a.win.pend) && lead'.gcnt == lead.gcnt + |a.win.pend|
    ensures AssignedInTurn(cfg, lead, feats, assign, trace, Clusters(lead'.cent, lead'.active))
    ensures AllRetained(cfg, lead.feats, a.slots, feats, bounds, assign, keeps, lead'.feats)
  {
    var cut := a.win.pend;
    hide SplitOk, Pick, Tiled, RoutedPart, SpanOk, FarthestFirst, AssignStep, AllRetained, Apart, OpBounded,
         SlotBounded, IsSpanFeature, SpanFits, RouteFold;
    bounds, routed := SplitSpans(cfg.Split(), mask, cfg.sink + a.evicted, |cut|);
    SplitParts(cfg.Split(), mask, cfg.sink + a.evicted, |cut|, bounds, routed);
    var fs, fed := SpanFeatures(cfg, lead, cut, bounds);
    var c := OpenSlots(cfg, lead, fs);
    var c': Clusters;
    assign, c', trace := AssignSpans(cfg, fs, c);
    var kept: seq<seq<Vec>>;
    assert Below(assign, cfg.mSlots);
    keeps, kept := RetainSpans(cfg, lead.feats, a.slots, fs, bounds, assign, routed);
    lead' := fed.(cent := c'.cent, active := c'.active, feats := kept);
    feats := fs;
    DecisionOk(cfg, mask, lead, a, fs, bounds, assign, keeps, routed, lead');
  }
}
