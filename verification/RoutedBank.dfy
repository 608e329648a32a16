/** RoutedBankLayer: the leader clusters evicted tokens into slots, followers replay its decisions. */
module RoutedBank {
  import opened Lists
  import opened Tokens
  import opened Eviction
  import opened OpLog
  import opened TopK
  import opened Features
  import opened Routed
  import opened RoutedBankSpec

  /** What only the leader keeps: centroids, the running mean of all features, and the kept scores. */
  datatype Leader = Leader(cent: seq<Vec>, gmean: KV, gcnt: nat, scores: seq<seq<real>>)

  function FreshLeader(cfg: Config): Leader {
    Leader([], Zero(cfg.dim), 0, seq(cfg.mSlots, _ => []))
  }

  /** A token is routed by its value, by its key, or by what its key has over the running mean. */
  ghost predicate IsFeature(cfg: Config, mean: KV, t: KV, f: Vec) {
    match cfg.routeOn
    case OnValue => f == t.value
    case OnKey => f == t.key
    case OnResid => |f| == |t.key| && forall c | 0 <= c < |f| :: f[c] + At(mean.key, c) == t.key[c]
  }

  ghost predicate Featured(cfg: Config, mean: KV, cut: seq<KV>, f: seq<Vec>) {
    |f| == |cut| && forall i | 0 <= i < |cut| :: IsFeature(cfg, mean, cut[i], f[i])
  }

  method TokenFeatures(cfg: Config, lead: Leader, cut: seq<KV>) returns (f: seq<Vec>, lead': Leader)
    requires cut != []
    ensures Featured(cfg, lead'.gmean, cut, f)
    ensures lead'.cent == lead.cent && lead'.scores == lead.scores && (!cfg.routeOn.OnResid? ==> lead' == lead)
    ensures cfg.routeOn.OnResid? ==>
      lead'.gcnt == lead.gcnt + |cut| && lead'.gmean == Absorb(cfg.dim, lead.gmean, lead.gcnt, cut)
  {
    lead' := lead;
    if cfg.routeOn.OnValue? {
      f := seq(|cut|, i requires 0 <= i < |cut| => cut[i].value);
    } else {
      f := seq(|cut|, i requires 0 <= i < |cut| => cut[i].key);
      if cfg.routeOn.OnResid? {
        lead' := lead.(gmean := Absorb(cfg.dim, lead.gmean, lead.gcnt, cut), gcnt := lead.gcnt + |cut|);
        var mean := lead'.gmean.key;
        f := seq(|cut|, i requires 0 <= i < |cut| => Subtract(cut[i].key, mean));
      }
    }
  }

  function Units(cfg: Config, vs: seq<Vec>): (r: seq<Vec>)
    ensures |r| == |vs| && forall i | 0 <= i < |vs| :: r[i] == cfg.unit(vs[i])
  {
    seq(|vs|, i requires 0 <= i < |vs| => cfg.unit(vs[i]))
  }

  /** Every feature goes to a most similar centroid. */
  ghost predicate Nearest(cfg: Config, f: seq<Vec>, cent: seq<Vec>, assign: seq<nat>) {
    && |assign| == |f| && Below(assign, |cent|)
    && forall i, s | 0 <= i < |f| && 0 <= s < |cent| ::
         Dot(cfg.unit(f[i]), cfg.unit(cent[s])) <= Dot(cfg.unit(f[i]), cfg.unit(cent[assign[i]]))
  }

  /** Touched centroids drift towards the mean of the features they attract, the others stay. */
  ghost predicate Moves(cfg: Config, f: seq<Vec>, cent: seq<Vec>, assign: seq<nat>, moved: seq<Vec>) {
    && |moved| == |cent| && |assign| == |f|
    && (forall s | 0 <= s < |cent| && s !in assign :: moved[s] == cent[s])
    && forall s | 0 <= s < |cent| && s in assign :: DriftsToMean(cfg.momentum, cent[s], Pick(f, assign, s), moved[s])
  }

  /** The distance of every feature to its centroid. */
  ghost predicate Distances(cfg: Config, f: seq<Vec>, cent: seq<Vec>, assign: seq<nat>, dist: seq<real>) {
    && |dist| == |assign| == |f| && Below(assign, |cent|)
    && forall i | 0 <= i < |f| :: dist[i] == 1.0 - Dot(cfg.unit(f[i]), cfg.unit(cent[assign[i]]))
  }

  /**
   * How features `f` are routed: centroids `cent` (the old ones, or a farthest-point start) attract
   * them, move to `moved`, and the distances are taken to the moved centroids.
   */
  ghost predicate Routing(cfg: Config, older: seq<Vec>, f: seq<Vec>, cent: seq<Vec>, assign: seq<nat>, moved: seq<Vec>,
                          dist: seq<real>)
  {
    && |cent| == cfg.mSlots && (if older != [] then cent == older else FarthestFirst(Units(cfg, f), cent))
    && Nearest(cfg, f, cent, assign) && Moves(cfg, f, cent, assign, moved) && Distances(cfg, f, moved, assign, dist)
  }

  method Assign(cfg: Config, f: seq<Vec>, cent: seq<Vec>) returns (assign: seq<nat>)
    requires cent != []
    ensures Nearest(cfg, f, cent, assign)
  {
    hide Dot;
    var fn, units := Units(cfg, f), Units(cfg, cent);
    assign := [];
    while |assign| < |fn|
      invariant |assign| <= |fn| && Below(assign, |cent|)
      invariant forall i, s | 0 <= i < |assign| && 0 <= s < |cent| ::
        Dot(cfg.unit(f[i]), cfg.unit(cent[s])) <= Dot(cfg.unit(f[i]), cfg.unit(cent[assign[i]]))
    {
      var x := fn[|assign|];
      var sims := seq(|cent|, s requires 0 <= s < |cent| => Dot(x, units[s]));
      var best := ArgBest(sims);
      forall s | 0 <= s < |cent| ensures Dot(x, units[s]) <= Dot(x, units[best]) {
        assert sims[s] <= sims[best];
      }
      assign := assign + [best];
    }
  }

  method MoveCentroids(cfg: Config, cent: seq<Vec>, f: seq<Vec>, assign: seq<nat>) returns (moved: seq<Vec>)
    requires |assign| == |f|
    ensures Moves(cfg, f, cent, assign, moved)
  {
    hide Pick, Blend, Average, DriftsToMean;
    moved := cent;
    var s := 0;
    while s < |cent|
      invariant 0 <= s <= |cent| == |moved|
      invariant forall t | 0 <= t < |cent| && (t >= s || t !in assign) :: moved[t] == cent[t]
      invariant forall t | 0 <= t < s && t in assign ::
        DriftsToMean(cfg.momentum, cent[t], Pick(f, assign, t), moved[t])
    {
      if s in assign {
        PickedSomething(f, assign, s);
        MovesToMean(cfg.momentum, cent[s], Pick(f, assign, s));
        moved := moved[s := Blend(cfg.momentum, cent[s], Average(Pick(f, assign, s)))];
      }
      s := s + 1;
    }
  }

  lemma MovesToMean(momentum: real, c: Vec, fs: seq<Vec>)
    requires fs != []
    ensures DriftsToMean(momentum, c, fs, Blend(momentum, c, Average(fs)))
  {
    hide Drifts, Blend, IsAverage, Average;
    assert IsAverage(fs, Average(fs));
  }

  /** What the leader does with the scores of slot `s`: keep the best of old and new, if it got any. */
  ghost predicate SlotDecided(cfg: Config, scores: seq<real>, assign: seq<nat>, dist: seq<real>, s: nat,
                              keeps: map<nat, seq<nat>>, scores': seq<real>)
  {
    && |assign| == |dist|
    && if s in keeps then
         IsTopK(scores + Pick(dist, assign, s), keeps[s], cfg.reps)
         && scores' == Select(scores + Pick(dist, assign, s), keeps[s])
       else scores' == scores
  }

  ghost predicate Decided(cfg: Config, scores: seq<seq<real>>, assign: seq<nat>, dist: seq<real>,
                          keeps: map<nat, seq<nat>>, scores': seq<seq<real>>)
  {
    && |assign| == |dist| && Below(assign, cfg.mSlots) && keeps.Keys == (set s | s in assign)
    && |scores| == |scores'| == cfg.mSlots
    && forall s | 0 <= s < cfg.mSlots :: SlotDecided(cfg, scores[s], assign, dist, s, keeps, scores'[s])
  }

  /** In every touched slot the leader keeps the `reps` tokens farthest from the centroid. */
  method KeepDistant(cfg: Config, scores: seq<seq<real>>, assign: seq<nat>, dist: seq<real>)
    returns (keeps: map<nat, seq<nat>>, scores': seq<seq<real>>)
    requires |scores| == cfg.mSlots && |assign| == |dist| && Below(assign, cfg.mSlots)
    ensures Decided(cfg, scores, assign, dist, keeps, scores')
  {
    keeps, scores' := map[], scores;
    var s := 0;
    while s < cfg.mSlots
      invariant 0 <= s <= cfg.mSlots && |scores'| == |scores|
      invariant forall t :: t in keeps <==> t in assign && t < s
      invariant forall t | 0 <= t < s :: SlotDecided(cfg, scores[t], assign, dist, t, keeps, scores'[t])
      invariant forall t | s <= t < cfg.mSlots :: scores'[t] == scores[t]
    {
      hide IsTopK, Pick, Select;
      ghost var before, older := keeps, scores';
      if s in assign {
        var cand := scores[s] + Pick(dist, assign, s);
        var keep := TopKIndices(cand, cfg.reps);
        IsTopKBounds(cand, keep, cfg.reps);
        keeps := keeps[s := keep];
        scores' := scores'[s := Select(cand, keep)];
      }
      forall t | 0 <= t < s ensures SlotDecided(cfg, scores[t], assign, dist, t, keeps, scores'[t]) {
        assert SlotDecided(cfg, scores[t], assign, dist, t, before, older[t]);
      }
      s := s + 1;
    }
    hide SlotDecided;
    forall t ensures t in keeps.Keys <==> t in (set s | s in assign) {
      if t in assign {
        var i :| 0 <= i < |assign| && assign[i] == t;
      }
    }
  }

  method RouteFeatures(cfg: Config, older: seq<Vec>, f: seq<Vec>)
    returns (assign: seq<nat>, cent: seq<Vec>, moved: seq<Vec>, dist: seq<real>)
    requires cfg.Ok() && f != [] && (older == [] || |older| == cfg.mSlots)
    ensures Routing(cfg, older, f, cent, assign, moved, dist)
    ensures |assign| == |dist| == |f| && |moved| == cfg.mSlots && Below(assign, cfg.mSlots)
  {
    hide FarthestFirst;
    cent := older;
    if cent == [] {
      cent := FarthestPoint(Units(cfg, f), cfg.mSlots);
    }
    assign := Assign(cfg, f, cent);
    moved := MoveCentroids(cfg, cent, f, assign);
    dist := CentroidDistances(cfg, f, moved, assign);
  }

  method CentroidDistances(cfg: Config, f: seq<Vec>, cent: seq<Vec>, assign: seq<nat>) returns (dist: seq<real>)
    requires |assign| == |f| && Below(assign, |cent|)
    ensures Distances(cfg, f, cent, assign, dist)
  {
    var fn, units := Units(cfg, f), Units(cfg, cent);
    dist := seq(|f|, i requires 0 <= i < |f| => 1.0 - Dot(fn[i], units[assign[i]]));
  }

  // ---- the record of all decisions ----------------------------------------

  /** One decision of the leader: what it saw, how it routed, what it kept, and the leader before and after. */
  datatype Decision = Decision(before: Leader, cut: seq<KV>, f: seq<Vec>, cent: seq<Vec>, assign: seq<nat>,
                               keeps: map<nat, seq<nat>>, dist: seq<real>, after: Leader)

  /** The running mean absorbs the chunk when routing goes by residuals, else it stays. */
  ghost predicate MeanFollows(cfg: Config, lead: Leader, cut: seq<KV>, lead': Leader) {
    if cfg.routeOn.OnResid? then
      |cut| > 0 && lead'.gcnt == lead.gcnt + |cut| && lead'.gmean == Absorb(cfg.dim, lead.gmean, lead.gcnt, cut)
    else lead'.gcnt == lead.gcnt && lead'.gmean == lead.gmean
  }

  /** The decision is the one the code takes: features of the tokens, routing by them, retention by distance. */
  ghost predicate DecisionOk(cfg: Config, d: Decision) {
    && |d.dist| == |d.assign| == |d.cut|
    && MeanFollows(cfg, d.before, d.cut, d.after) && Featured(cfg, d.after.gmean, d.cut, d.f)
    && Routing(cfg, d.before.cent, d.f, d.cent, d.assign, d.after.cent, d.dist)
    && Decided(cfg, d.before.scores, d.assign, d.dist, d.keeps, d.after.scores)
  }

  /**
   * `trail` is a complete record from a fresh leader to `lead`: decision after decision, each on exactly
   * the tokens of the history that its logged chunk covers, each handing its leader to the next.
   */
  ghost predicate TrailOk(cfg: Config, trail: seq<Decision>, chunks: seq<Assigned>, h: seq<KV>, lead: Leader) {
    && |trail| == |chunks|
    && if trail == [] then lead == FreshLeader(cfg)
       else
         var n := |trail| - 1;
         var d, c := trail[n], chunks[n];
         && DecisionOk(cfg, d) && d.after == lead && d.assign == c.labels
         && c.start + |c.labels| <= |h| && d.cut == h[c.start..c.start + |c.labels|]
         && TrailOk(cfg, trail[..n], chunks[..n], h, d.before)
  }

  /** The distance every evicted token had to its centroid when it was assigned, oldest first. */
  ghost function Dists(trail: seq<Decision>): seq<real> {
    if trail == [] then [] else Dists(trail[..|trail| - 1]) + trail[|trail| - 1].dist
  }

  lemma {:induction false} DistsFitLabels(cfg: Config, trail: seq<Decision>, chunks: seq<Assigned>, h: seq<KV>,
                                          lead: Leader)
    requires TrailOk(cfg, trail, chunks, h, lead)
    ensures |Dists(trail)| == |Labels(chunks)|
  {
    if trail == [] {
    } else {
      var n := |trail| - 1;
      DistsFitLabels(cfg, trail[..n], chunks[..n], h, trail[n].before);
    }
  }

  lemma {:induction false} TrailSurvives(cfg: Config, trail: seq<Decision>, chunks: seq<Assigned>, h: seq<KV>,
                                         lead: Leader, chunk: seq<KV>)
    requires TrailOk(cfg, trail, chunks, h, lead)
    ensures TrailOk(cfg, trail, chunks, h + chunk, lead)
  {
    hide DecisionOk;
    if trail == [] {
    } else {
      var n := |trail| - 1;
      TrailSurvives(cfg, trail[..n], chunks[..n], h, trail[n].before, chunk);
      var c := chunks[n];
      assert (h + chunk)[c.start..c.start + |c.labels|] == h[c.start..c.start + |c.labels|];
    }
  }

  lemma TrailGrows(cfg: Config, trail: seq<Decision>, chunks: seq<Assigned>, h: seq<KV>, d: Decision, start: nat)
    requires TrailOk(cfg, trail, chunks, h, d.before) && DecisionOk(cfg, d)
    requires start + |d.assign| <= |h| && d.cut == h[start..start + |d.assign|]
    ensures TrailOk(cfg, trail + [d], chunks + [Assigned(start, d.assign)], h, d.after)
    ensures Dists(trail + [d]) == Dists(trail) + d.dist
  {
    hide DecisionOk;
    assert (trail + [d])[..|trail|] == trail && (chunks + [Assigned(start, d.assign)])[..|chunks|] == chunks;
  }

  /** The scores of all tokens ever routed to slot `s`. */
  ghost function ScoresOf(trail: seq<Decision>, route: seq<nat>, s: nat): seq<real>
    requires |Dists(trail)| == |route|
  {
    Pick(Dists(trail), route, s)
  }

  /**
   * What a deciding layer keeps is what its record of decisions says: in every slot the kept scores and
   * positions are the top ones of all tokens ever routed there, and the mean is that of all routed tokens.
   */
  ghost predicate LeadOk(cfg: Config, lead: Leader, b: Bank, h: seq<KV>, trail: seq<Decision>, kept: seq<seq<nat>>) {
    var route := Labels(b.chunks);
    && |lead.scores| == |kept| == |b.slots| == cfg.mSlots
    && (lead.cent == [] || |lead.cent| == cfg.mSlots)
    && (cfg.routeOn.OnResid? ==> lead.gcnt == |route| && IsMean(cfg.dim, lead.gmean, Gone(h, cfg.sink, |route|)))
    && TrailOk(cfg, trail, b.chunks, h, lead) && |Dists(trail)| == |route|
    && forall s | 0 <= s < cfg.mSlots ::
       TopSlot(cfg, b.slots[s], route, s, lead.scores[s], ScoresOf(trail, route, s), kept[s])
  }

  /** The decision of the leader for one pending chunk. */
  method RouteDecisions(cfg: Config, lead: Leader, cut: seq<KV>)
    returns (assign: seq<nat>, keeps: map<nat, seq<nat>>, lead': Leader, ghost d: Decision)
    requires cfg.Ok() && cut != [] && |lead.scores| == cfg.mSlots
    requires lead.cent == [] || |lead.cent| == cfg.mSlots
    ensures DecisionOk(cfg, d) && d.before == lead && d.cut == cut && d.after == lead'
    ensures d.assign == assign && d.keeps == keeps && |lead'.cent| == cfg.mSlots
  {
    hide IsTopK, Pick, Select, Absorb, FarthestFirst, Dot, SlotDecided, Decided, Routing, Featured;
    var f, fed := TokenFeatures(cfg, lead, cut);
    var cent, moved, dist, scores;
    assign, cent, moved, dist := RouteFeatures(cfg, lead.cent, f);
    keeps, scores := KeepDistant(cfg, lead.scores, assign, dist);
    lead' := fed.(cent := moved, scores := scores);
    d := Decision(lead, cut, f, cent, assign, keeps, dist, lead');
  }

  /** Applies one routing decision, slot after slot. */
  method ApplyRoute(cfg: Config, b: Bank, assign: seq<nat>, keeps: map<nat, seq<nat>>) returns (r: Bank)
    requires RouteFits(cfg, b, assign, keeps)
    ensures r == RouteFold(cfg, b, assign, keeps)
  {
    var cut, start := b.win.pend, cfg.sink + b.evicted;
    var slots := b.slots;
    var s := 0;
    while s < cfg.mSlots
      invariant 0 <= s <= cfg.mSlots == |slots|
      invariant forall t | 0 <= t < s :: slots[t] == RoutedSlot(cfg, b, assign, keeps, t)
      invariant forall t | s <= t < cfg.mSlots :: slots[t] == b.slots[t]
    {
      hide Pick;
      if s in keeps {
        var joined := Pick(cut, assign, s);
        var slot, keep := slots[s], keeps[s];
        PickedSomething(cut, assign, s);
        SamePickLength(cut, Range(start, |cut|), assign, s);
        assert KeepFits(cfg, b.slots[s], |joined|, keep);
        var next := Slot(slot.count + |joined|, Absorb(cfg.dim, slot.mean, slot.count, joined),
                         Select(slot.reps + joined, keep),
                         Select(slot.repPos + Pick<nat>(Range(start, |cut|), assign, s), keep));
        assert next == RoutedSlot(cfg, b, assign, keeps, s);
        slots := slots[s := next];
      }
      s := s + 1;
    }
    r := b.(win := b.win.(pend := []), evicted := b.evicted + |assign|, slots := slots,
            chunks := b.chunks + [Assigned(start, assign)], cursor := b.cursor + 1);
    assert slots == RouteFold(cfg, b, assign, keeps).slots;
  }

  /** Which scores of all are kept after a chunk. */
  ghost function MoreKept(all: seq<real>, kept: seq<nat>, added: seq<real>, s: nat, keeps: map<nat, seq<nat>>): seq<nat>
  {
    if s in keeps && Below(keeps[s], |kept| + |added|) then Survivors(kept, |all|, |added|, keeps[s]) else kept
  }

  lemma SlotFits(cfg: Config, slot: Slot, route: seq<nat>, s: nat, scores: seq<real>, all: seq<real>, kept: seq<nat>,
                 cut: seq<KV>, assign: seq<nat>, dist: seq<real>, keeps: map<nat, seq<nat>>, scores': seq<real>)
    requires TopSlot(cfg, slot, route, s, scores, all, kept) && |slot.reps| == |slot.repPos|
    requires SlotDecided(cfg, scores, assign, dist, s, keeps, scores') && |cut| == |dist| && s in keeps
    ensures KeepFits(cfg, slot, |Pick(cut, assign, s)|, keeps[s])
    ensures Below(keeps[s], |kept| + |Pick(dist, assign, s)|)
  {
    SamePickLength(cut, dist, assign, s);
    hide Pick, MemberPositions, Increasing;
  }

  lemma DecisionFits(cfg: Config, lead: Leader, b: Bank, h: seq<KV>, trail: seq<Decision>, kept: seq<seq<nat>>,
                     d: Decision)
    requires Sound(cfg, b, h) && LeadOk(cfg, lead, b, h, trail, kept)
    requires DecisionOk(cfg, d) && d.before == lead && d.cut == b.win.pend
    ensures RouteFits(cfg, b, d.assign, d.keeps)
  {
    hide SlotDecided, TopSlot, KeepFits, Holds, Pick, Labels, ChunksOk, TrailOk, ScoresOf, Routing, Featured,
         MeanFollows;
    forall s | 0 <= s < cfg.mSlots && s in d.keeps
      ensures KeepFits(cfg, b.slots[s], |Pick(b.win.pend, d.assign, s)|, d.keeps[s])
    {
      var route := Labels(b.chunks);
      assert SlotOk(cfg.dim, cfg.sink, b.slots[s], s, h, route);
      hide IsMean, Members, Increasing;
      assert SlotDecided(cfg, lead.scores[s], d.assign, d.dist, s, d.keeps, d.after.scores[s]);
      SlotFits(cfg, b.slots[s], route, s, lead.scores[s], ScoresOf(trail, route, s), kept[s], b.win.pend, d.assign,
               d.dist, d.keeps, d.after.scores[s]);
    }
  }

  lemma TopSlotDecided(cfg: Config, slot: Slot, route: seq<nat>, s: nat, scores: seq<real>, all: seq<real>,
                       kept: seq<nat>, cut: seq<KV>, assign: seq<nat>, dist: seq<real>, keeps: map<nat, seq<nat>>,
                         scores': seq<real>)
    requires TopSlot(cfg, slot, route, s, scores, all, kept) && |slot.reps| == |slot.repPos|
    requires SlotDecided(cfg, scores, assign, dist, s, keeps, scores') && |cut| == |dist|
      && (s in keeps <==> s in assign)
    ensures s in keeps ==> Pick(cut, assign, s) != [] && KeepFits(cfg, slot, |Pick(cut, assign, s)|, keeps[s])
    ensures TopSlot(cfg, if s in keeps then SlotStep(cfg, slot, cut, cfg.sink + |route|, assign, s, keeps[s]) else slot,
                    route + assign, s, scores', all + Pick(dist, assign, s),
                      MoreKept(all, kept, Pick(dist, assign, s), s, keeps))
  {
    PickedSomething(cut, assign, s);
    if s in keeps {
      SlotFits(cfg, slot, route, s, scores, all, kept, cut, assign, dist, keeps, scores');
      TopSlotStep(cfg, slot, route, s, scores, all, kept, cut, assign, dist, keeps[s]);
    } else {
      TopSlotUntouched(cfg, slot, route, s, scores, all, kept, assign);
      PickedSomething(dist, assign, s);
      assert all + Pick(dist, assign, s) == all;
    }
    hide TopSlot, Pick, SlotStep, IsTopK;
  }

  lemma TopSlotsStep(cfg: Config, lead: Leader, b: Bank, h: seq<KV>, trail: seq<Decision>, kept: seq<seq<nat>>,
                     d: Decision, s: nat)
    requires Sound(cfg, b, h) && LeadOk(cfg, lead, b, h, trail, kept) && RouteFits(cfg, b, d.assign, d.keeps)
    requires DecisionOk(cfg, d) && d.before == lead && d.cut == b.win.pend && s < cfg.mSlots
    ensures TopSlot(cfg, RoutedSlot(cfg, b, d.assign, d.keeps, s), Labels(b.chunks) + d.assign, s, d.after.scores[s],
                    ScoresOf(trail, Labels(b.chunks), s) + Pick(d.dist, d.assign, s),
                    MoreKept(ScoresOf(trail, Labels(b.chunks), s), kept[s], Pick(d.dist, d.assign, s), s, d.keeps))
  {
    hide TopSlot, Sound, Pick, SlotDecided, SlotStep, MoreKept, Labels, Below, KeepFits, TrailOk, ScoresOf, Routing,
         Featured, MeanFollows;
    SlotAligned(cfg, b, h, s);
    TopSlotDecided(cfg, b.slots[s], Labels(b.chunks), s, lead.scores[s], ScoresOf(trail, Labels(b.chunks), s), kept[s],
                   b.win.pend, d.assign, d.dist, d.keeps, d.after.scores[s]);
    assert RoutedSlot(cfg, b, d.assign, d.keeps, s)
        == if s in d.keeps
           then SlotStep(cfg, b.slots[s], b.win.pend, cfg.sink + |Labels(b.chunks)|, d.assign, s, d.keeps[s])
           else b.slots[s];
  }

  lemma SlotAligned(cfg: Config, b: Bank, h: seq<KV>, s: nat)
    requires Sound(cfg, b, h) && s < cfg.mSlots
    ensures b.evicted == |Labels(b.chunks)| && |b.slots| == cfg.mSlots
    ensures |b.slots[s].reps| == |b.slots[s].repPos|
  {
    assert SlotOk(cfg.dim, cfg.sink, b.slots[s], s, h, Labels(b.chunks));
  }

  ghost function KeptAfter(cfg: Config, trail: seq<Decision>, route: seq<nat>, kept: seq<seq<nat>>,
                           d: Decision): (k: seq<seq<nat>>)
    requires |kept| == cfg.mSlots && |Dists(trail)| == |route| && |d.dist| == |d.assign|
    ensures |k| == cfg.mSlots && forall s | 0 <= s < cfg.mSlots ::
      k[s] == MoreKept(ScoresOf(trail, route, s), kept[s], Pick(d.dist, d.assign, s), s, d.keeps)
  {
    seq(cfg.mSlots, s requires 0 <= s < cfg.mSlots =>
      MoreKept(ScoresOf(trail, route, s), kept[s], Pick(d.dist, d.assign, s), s, d.keeps))
  }

  lemma ScoresGrow(trail: seq<Decision>, route: seq<nat>, d: Decision, s: nat)
    requires |Dists(trail)| == |route| && |d.dist| == |d.assign| && Dists(trail + [d]) == Dists(trail) + d.dist
    ensures ScoresOf(trail + [d], route + d.assign, s) == ScoresOf(trail, route, s) + Pick(d.dist, d.assign, s)
  {
    PickConcat(Dists(trail), route, d.dist, d.assign, s);
  }

  /** The leader's own bookkeeping after the decision it has just taken. */
  lemma LeadStep(cfg: Config, lead: Leader, b: Bank, h: seq<KV>, trail: seq<Decision>, kept: seq<seq<nat>>, d: Decision)
    requires cfg.Ok() && Sound(cfg, b, h) && LeadOk(cfg, lead, b, h, trail, kept)
      && RouteFits(cfg, b, d.assign, d.keeps)
    requires DecisionOk(cfg, d) && d.before == lead && d.cut == b.win.pend && d.cut != []
      && |d.after.cent| == cfg.mSlots
    ensures LeadOk(cfg, d.after, RouteFold(cfg, b, d.assign, d.keeps), h, trail + [d],
                   KeptAfter(cfg, trail, Labels(b.chunks), kept, d))
  {
    hide TopSlot, IsMean, Sound, SlotDecided, MoreKept, RoutedSlot, RouteFold, Gone, TrailOk, ScoresOf, Labels,
         Routing, Featured, RouteFits, Dists, Absorb, KeptAfter, Decided, SlotKeys, Below;
    var route := Labels(b.chunks);
    DecisionShape(cfg, d);
    CutIsHistory(cfg, b, h, |d.assign|);
    MeanStep(cfg, lead, b, h);
    TrailGrows(cfg, trail, b.chunks, h, d, cfg.sink + b.evicted);
    FoldedParts(cfg, b, d.assign, d.keeps);
    forall s | 0 <= s < cfg.mSlots
      ensures TopSlot(cfg, RoutedSlot(cfg, b, d.assign, d.keeps, s), route + d.assign, s, d.after.scores[s],
                      ScoresOf(trail + [d], route + d.assign, s), KeptAfter(cfg, trail, route, kept, d)[s])
    {
      TopSlotsStep(cfg, lead, b, h, trail, kept, d, s);
      ScoresGrow(trail, route, d, s);
    }
  }

  lemma FoldedParts(cfg: Config, b: Bank, assign: seq<nat>, keeps: map<nat, seq<nat>>)
    requires RouteFits(cfg, b, assign, keeps)
    ensures var r := RouteFold(cfg, b, assign, keeps);
            && r.chunks == b.chunks + [Assigned(cfg.sink + b.evicted, assign)]
               && Labels(r.chunks) == Labels(b.chunks) + assign
            && |r.slots| == cfg.mSlots
            && forall s | 0 <= s < cfg.mSlots :: r.slots[s] == RoutedSlot(cfg, b, assign, keeps, s)
  {
    hide RoutedSlot;
    var more := b.chunks + [Assigned(cfg.sink + b.evicted, assign)];
    assert more[..|more| - 1] == b.chunks;
  }

  /** The pending tokens are the next tokens of the history. */
  lemma CutIsHistory(cfg: Config, b: Bank, h: seq<KV>, n: nat)
    requires Sound(cfg, b, h) && b.win.pend != [] && n == |b.win.pend|
    ensures b.evicted == |Labels(b.chunks)|
    ensures cfg.sink + b.evicted + n <= |h| && b.win.pend == h[cfg.sink + b.evicted..cfg.sink + b.evicted + n]
  {
  }

  lemma MeanStep(cfg: Config, lead: Leader, b: Bank, h: seq<KV>)
    requires Sound(cfg, b, h) && b.win.pend != []
    requires cfg.routeOn.OnResid? ==>
      lead.gcnt == b.evicted && IsMean(cfg.dim, lead.gmean, Gone(h, cfg.sink, b.evicted))
    ensures cfg.routeOn.OnResid? ==>
      IsMean(cfg.dim, Absorb(cfg.dim, lead.gmean, lead.gcnt, b.win.pend), Gone(h, cfg.sink, b.evicted + |b.win.pend|))
  {
    hide IsMean, Absorb, Gone;
    CutIsHistory(cfg, b, h, |b.win.pend|);
    GoneGrows(h, cfg.sink, b.evicted, b.win.pend);
    RoutedFit(cfg.dim, cfg.sink, cfg.window, b.win, b.slots, h, Labels(b.chunks));
    if cfg.routeOn.OnResid? {
      AbsorbIsMean(cfg.dim, lead.gmean, Gone(h, cfg.sink, b.evicted), b.win.pend);
    }
  }

  lemma LeadSurvives(cfg: Config, lead: Leader, b: Bank, h: seq<KV>, trail: seq<Decision>, kept: seq<seq<nat>>,
                     chunk: seq<KV>)
    requires Sound(cfg, b, h) && LeadOk(cfg, lead, b, h, trail, kept) && |b.win.sink| <= cfg.sink
    ensures LeadOk(cfg, lead, Admitted(cfg, b, chunk), h + chunk, trail, kept)
  {
    RoutedFit(cfg.dim, cfg.sink, cfg.window, b.win, b.slots, h, Labels(b.chunks));
    assert Gone(h + chunk, cfg.sink, b.evicted) == Gone(h, cfg.sink, b.evicted);
    TrailSurvives(cfg, trail, b.chunks, h, lead, chunk);
  }

  lemma FreshLeadOk(cfg: Config)
    ensures LeadOk(cfg, FreshLeader(cfg), Empty(cfg), [], [], seq(cfg.mSlots, _ => []))
  {
    ZeroIsMean(cfg.dim);
  }

  /** A deciding layer logs and records exactly one decision when a chunk is full, and nothing otherwise. */
  ghost predicate Led(cfg: Config, lead: Leader, a: Bank, log: seq<Op>, trail: seq<Decision>, log': seq<Op>,
                      lead': Leader, trail': seq<Decision>)
  {
    if |a.win.pend| < cfg.routeChunk then log' == log && lead' == lead && trail' == trail
    else
      && |trail'| == |trail| + 1
      && var d := trail'[|trail|];
         && trail' == trail + [d] && log' == log + [Route(d.assign, d.keeps)]
         && DecisionOk(cfg, d) && d.before == lead && d.cut == a.win.pend && d.after == lead'
  }

  /** The first decision needs a token for every centroid; the code asserts that it has them. */
  predicate Trips(cfg: Config, lead: Leader, a: Bank) {
    lead.cent == [] && cfg.routeChunk <= |a.win.pend| < cfg.mSlots
  }

  /** A decision of the leader on a full chunk fits the bank, and its records follow the fold. */
  method LeadDecides(cfg: Config, a: Bank, lead: Leader, ghost h: seq<KV>, ghost trail: seq<Decision>,
                     ghost kept: seq<seq<nat>>)
    returns (assign: seq<nat>, keeps: map<nat, seq<nat>>, lead': Leader, ghost d: Decision, ghost kept': seq<seq<nat>>)
    requires cfg.Ok() && Sound(cfg, a, h) && LeadOk(cfg, lead, a, h, trail, kept) && |a.win.pend| >= cfg.routeChunk
    ensures DecisionOk(cfg, d) && d.before == lead && d.cut == a.win.pend && d.after == lead'
    ensures d.assign == assign && d.keeps == keeps
    ensures RouteFits(cfg, a, assign, keeps)
    ensures LeadOk(cfg, lead', RouteFold(cfg, a, assign, keeps), h, trail + [d], kept')
  {
    hide Sound, LeadOk, RouteFits, RouteFold, DecisionOk;
    LeadShape(cfg, lead, a, h, trail, kept);
    assign, keeps, lead', d := RouteDecisions(cfg, lead, a.win.pend);
    DecisionFits(cfg, lead, a, h, trail, kept, d);
    DecisionShape(cfg, d);
    kept' := KeptAfter(cfg, trail, Labels(a.chunks), kept, d);
    LeadStep(cfg, lead, a, h, trail, kept, d);
  }

  lemma DecisionShape(cfg: Config, d: Decision)
    requires DecisionOk(cfg, d)
    ensures |d.dist| == |d.assign| == |d.cut| && |d.after.scores| == cfg.mSlots
    ensures MeanFollows(cfg, d.before, d.cut, d.after)
  {
  }

  /**
   * Routes the pending tokens once they fill a routing chunk. A deciding layer logs a decision that
   * fits and records it; a follower takes the one at its cursor.
   */
  method FoldFull(cfg: Config, a: Bank, lead: Leader, ghost h: seq<KV>, log: seq<Op>, decides: bool,
                  ghost trail: seq<Decision>, ghost kept: seq<seq<nat>>)
    returns (r: Outcome<Bank>, log': seq<Op>, lead': Leader, ghost trail': seq<Decision>, ghost kept': seq<seq<nat>>)
    requires cfg.Ok() && Sound(cfg, a, h)
    requires decides ==> a.cursor == |log| && LeadOk(cfg, lead, a, h, trail, kept)
    ensures log <= log' && (if r.Done? then r == FoldIfFull(cfg, a, log') else FoldIfFull(cfg, a, log').Raised?)
    ensures if decides then r == Raised(FirstChunkTooSmall) <==> Trips(cfg, lead, a) else log' == log
    ensures decides ==> (r.Raised? <==> Trips(cfg, lead, a))
    ensures decides && r.Done? ==>
      && r.value.cursor == |log'| && LeadOk(cfg, lead', r.value, h, trail', kept')
      && Led(cfg, lead, a, log, trail, log', lead', trail')
  {
    log', lead', trail', kept' := log, lead, trail, kept;
    if |a.win.pend| < cfg.routeChunk {
      return Done(a), log', lead', trail', kept';
    }
    hide Sound, LeadOk, RouteFits, RouteFold, RoutedSlot, DecisionOk;
    var assign, keeps := [], map[];
    if decides {
      if Trips(cfg, lead, a) {
        return Raised(FirstChunkTooSmall), log', lead', trail', kept';
      }
      ghost var d;
      assign, keeps, lead', d, kept' := LeadDecides(cfg, a, lead, h, trail, kept);
      log', trail' := log + [Route(assign, keeps)], trail + [d];
    } else if a.cursor >= |log| {
      return Raised(LogExhausted), log', lead', trail', kept';
    } else if !log[a.cursor].Route? {
      return Raised(Desync), log', lead', trail', kept';
    } else if !RouteFits(cfg, a, log[a.cursor].assign, log[a.cursor].keeps) {
      return Raised(Misfit), log', lead', trail', kept';
    } else {
      assign, keeps := log[a.cursor].assign, log[a.cursor].keeps;
    }
    var folded := ApplyRoute(cfg, a, assign, keeps);
    RouteFoldCursor(cfg, a, assign, keeps);
    r := Done(folded);
  }

  lemma LeadShape(cfg: Config, lead: Leader, b: Bank, h: seq<KV>, trail: seq<Decision>, kept: seq<seq<nat>>)
    requires LeadOk(cfg, lead, b, h, trail, kept)
    ensures |lead.scores| == |kept| == cfg.mSlots && |Dists(trail)| == |Labels(b.chunks)|
    ensures lead.cent == [] || |lead.cent| == cfg.mSlots
  {
  }

  lemma RouteFoldCursor(cfg: Config, b: Bank, assign: seq<nat>, keeps: map<nat, seq<nat>>)
    requires RouteFits(cfg, b, assign, keeps)
    ensures RouteFold(cfg, b, assign, keeps).cursor == b.cursor + 1
  {
  }

  /** sink, then mean and kept tokens of every used slot, then pending and ring. */
  method Materialize(w: Window<KV>, slots: seq<Slot>) returns (keys: seq<KV>)
    ensures keys == Materialized(w, slots)
  {
    var parts := w.sink;
    var s := 0;
    while s < |slots|
      invariant 0 <= s <= |slots|
      invariant parts == w.sink + SlotKeys(slots[..s])
    {
      assert slots[..s + 1][..s] == slots[..s];
      if slots[s].count > 0 {
        parts := parts + ([slots[s].mean] + slots[s].reps);
      }
      s := s + 1;
    }
    assert slots[..s] == slots;
    keys := parts + w.pend + w.ring;
  }

  method BuildLayout(sinkCap: nat, sinkLen: nat, pendLen: nat, ringLen: nat, evicted: nat, seen: nat, slots: seq<Slot>)
    returns (layout: seq<Entry>)
    requires ringLen <= seen
    ensures layout == Layout(sinkCap, sinkLen, pendLen, ringLen, evicted, seen, slots)
  {
    layout := SinkEntries(sinkLen);
    var s := 0;
    while s < |slots|
      invariant 0 <= s <= |slots|
      invariant layout == SinkEntries(sinkLen) + SlotEntries(slots[..s])
    {
      assert slots[..s + 1][..s] == slots[..s];
      if slots[s].count > 0 {
        layout := layout + ([SlotMean(s)] + RepEntries(s, slots[s].repPos));
      }
      s := s + 1;
    }
    assert slots[..s] == slots;
    layout := layout + PendingEntries(sinkCap + evicted, pendLen) + RingEntries(seen - ringLen, ringLen);
  }

  /** The bookkeeping of one update of a layer in a sound state. */
  method Digest(cfg: Config, b: Bank, lead: Leader, ghost h: seq<KV>, chunk: seq<KV>, log: seq<Op>, decides: bool,
                ghost trail: seq<Decision>, ghost kept: seq<seq<nat>>)
    returns (r: Outcome<Bank>, log': seq<Op>, lead': Leader, ghost trail': seq<Decision>, ghost kept': seq<seq<nat>>)
    requires cfg.Ok() && Sound(cfg, b, h)
    requires decides ==> b.cursor == |log| && LeadOk(cfg, lead, b, h, trail, kept)
    ensures |b.win.sink| <= cfg.sink && log <= log'
    ensures if r.Done? then r == Step(cfg, b, chunk, log') else Step(cfg, b, chunk, log').Raised?
    ensures r.Done? ==> Sound(cfg, r.value, h + chunk) && |r.value.win.pend| < cfg.routeChunk
    ensures if decides then r.Raised? <==> Trips(cfg, lead, Admitted(cfg, b, chunk)) else log' == log
    ensures decides && r.Done? ==>
      && r.value.cursor == |log'| && LeadOk(cfg, lead', r.value, h + chunk, trail', kept')
      && Led(cfg, lead, Admitted(cfg, b, chunk), log, trail, log', lead', trail')
  {
    hide Sound, LeadOk, FoldIfFull, Admit, Led, Trips;
    AdmittedSound(cfg, b, h, chunk);
    if decides {
      LeadSurvives(cfg, lead, b, h, trail, kept, chunk);
    }
    var win := AdmitTokens(cfg.sink, cfg.window, b.win, chunk);
    var a := b.(win := win, seen := b.seen + |chunk|);
    r, log', lead', trail', kept' := FoldFull(cfg, a, lead, h + chunk, log, decides, trail, kept);
    if r.Done? {
      StepSound(cfg, b, h, chunk, log');
    }
  }

  class RoutedBankLayer {
    const cfg: Config
    const coord: Coord?
    const isLeader: bool
    var sinkTokens: seq<KV>
    var pendTokens: seq<KV>
    var ringTokens: seq<KV>
    var slots: seq<Slot>
    var evicted: nat
    var cumulativeLength: nat
    var assignChunks: seq<Assigned>
    var opCursor: nat
    var keys: seq<KV>
    var lead: Leader
    /** The decisions of a layer without a shared log. */
    var ops: seq<Op>
    ghost var history: seq<KV>
    /** At a deciding layer every decision ever taken, and in each slot which of its members are kept. */
    ghost var trail: seq<Decision>
    ghost var kept: seq<seq<nat>>

    function State(): Bank
      reads this
    {
      Bank(Window(sinkTokens, pendTokens, ringTokens), evicted, cumulativeLength, slots, assignChunks, opCursor)
    }

    predicate Decides() { coord == null || isLeader }

    function Log(): seq<Op>
      reads this, coord
    {
      if coord == null then ops else coord.log
    }

    /**
     * Holds before and after every update: exact slots, less than one routing chunk pending, and at
     * a deciding layer the top scores of everything ever routed.
     */
    ghost predicate Valid()
      reads this, coord
    {
      && cfg.Ok() && Sound(cfg, State(), history) && |pendTokens| < cfg.routeChunk
      && keys == Materialized(State().win, slots)
      && (Decides() ==> opCursor == |Log()| && LeadOk(cfg, lead, State(), history, trail, kept))
    }

    constructor (cfg: Config, coord: Coord?, isLeader: bool)
      requires cfg.Ok() && (coord != null ==> coord.log == [])
      ensures Valid() && history == [] && trail == [] && State() == Empty(cfg) && lead == FreshLeader(cfg)
      ensures this.cfg == cfg && this.coord == coord && this.isLeader == isLeader
    {
      this.cfg, this.coord, this.isLeader := cfg, coord, isLeader;
      sinkTokens, pendTokens, ringTokens := [], [], [];
      slots := seq(cfg.mSlots, _ => EmptySlot(cfg.dim));
      evicted, cumulativeLength, assignChunks, opCursor, keys := 0, 0, [], 0, [];
      lead, ops := FreshLeader(cfg), [];
      history := [];
      trail, kept := [], seq(cfg.mSlots, _ => []);
      new;
      EmptySound(cfg);
      FreshLeadOk(cfg);
      ExactBeforeFirstFold(cfg.dim, cfg.sink, cfg.window, State().win, slots, []);
    }

    method Record(lead': Leader, ghost h: seq<KV>, ghost all: seq<Decision>, ghost held: seq<seq<nat>>)
      modifies this`lead, this`history, this`trail, this`kept
      ensures lead == lead' && history == h && trail == all && kept == held && State() == old(State())
    {
      lead, history, trail, kept := lead', h, all, held;
    }

    method Store(b: Bank, newKeys: seq<KV>)
      modifies this`sinkTokens, this`pendTokens, this`ringTokens, this`slots, this`evicted, this`cumulativeLength,
        this`assignChunks, this`opCursor, this`keys
      ensures State() == b && keys == newKeys
    {
      sinkTokens, pendTokens, ringTokens := b.win.sink, b.win.pend, b.win.ring;
      slots, evicted, cumulativeLength, assignChunks, opCursor := b.slots, b.evicted, b.seen, b.chunks, b.cursor;
      keys := newKeys;
    }

    /** Only a deciding layer writes: to the shared log if there is one, else to its own. */
    method Publish(log: seq<Op>)
      requires !Decides() ==> log == Log()
      modifies this`ops, coord
      ensures Log() == log
    {
      if coord == null {
        ops := log;
      } else if isLeader {
        coord.log := log;
      }
    }

    /** The origin of every materialised entry, from counts, positions and lengths alone. */
    method SlotLayout() returns (layout: seq<Entry>)
      requires Valid()
      ensures |Gone(history, cfg.sink, |Labels(assignChunks)|)| == |Labels(assignChunks)|
      ensures AllMatch(cfg.dim, cfg.sink, layout, keys, history, Labels(assignChunks))
    {
      RingFits(cfg, State(), history);
      hide LeadOk;
      layout := BuildLayout(cfg.sink, |sinkTokens|, |pendTokens|, |ringTokens|, evicted, cumulativeLength, slots);
      LayoutIndexes(cfg.dim, cfg.sink, cfg.window, State().win, slots, history, Labels(assignChunks));
    }

    /** The slot an evicted position was routed to; nothing for a token still held elsewhere. */
    method AssignmentOf(pos: nat) returns (slot: Option<nat>)
      requires Valid()
      ensures slot == if cfg.sink <= pos < cfg.sink + evicted then Some(Labels(assignChunks)[pos - cfg.sink]) else None
    {
      assert ChunksOk(cfg.sink, assignChunks) && |Labels(assignChunks)| == evicted;
      hide Sound, LeadOk;
      slot := FindAssignment(cfg.sink, assignChunks, pos);
    }

    /**
     * One chunk. A deciding layer fails only on a first decision with fewer tokens than slots; a follower succeeds
     * exactly when the shared log
     * holds the decision it needs; either way the new state is the one `Step` computes from that log.
     */
    method Update(chunk: seq<KV>) returns (r: Outcome<seq<KV>>)
      requires Valid()
      modifies this, coord
      ensures |old(State()).win.sink| <= cfg.sink
      ensures old(Log()) <= Log() && (!Decides() ==> Log() == old(Log()))
      ensures Decides() ==> (r.Raised? <==> Trips(cfg, old(lead), Admitted(cfg, old(State()), chunk)))
      ensures r.Done? <==> Step(cfg, old(State()), chunk, Log()).Done?
      ensures r.Done? ==> Step(cfg, old(State()), chunk, Log()) == Done(State())
      ensures r.Done? ==> Valid() && history == old(history) + chunk && r.value == old(keys) + chunk
      ensures Decides() && r.Done? ==>
        Led(cfg, old(lead), Admitted(cfg, old(State()), chunk), old(Log()), old(trail), Log(), lead, trail)
    {
      hide Sound, LeadOk, Materialized, Step, Led, Admit, Trips;
      var returned := keys + chunk;
      var next, log, lead', trail', kept' := Digest(cfg, State(), lead, history, chunk, Log(), Decides(), trail, kept);
      Publish(log);
      if next.Raised? {
        return Raised(next.fault);
      }
      var newKeys := Materialize(next.value.win, next.value.slots);
      Record(lead', history + chunk, trail', kept');
      Store(next.value, newKeys);
      r := Done(returned);
    }
  }

  lemma RingFits(cfg: Config, b: Bank, h: seq<KV>)
    requires Sound(cfg, b, h)
    ensures |b.win.ring| <= b.seen && b.seen == |h| && b.evicted == |Labels(b.chunks)|
  {
  }

  // ---- what a whole run keeps ---------------------------------------------

  /** The deciding layer's record of distances covers exactly the tokens routed so far. */
  lemma TrailCovers(layer: RoutedBankLayer)
    requires layer.Valid() && layer.Decides()
    ensures |Dists(layer.trail)| == |Labels(layer.assignChunks)| == layer.evicted
    ensures TrailOk(layer.cfg, layer.trail, layer.assignChunks, layer.history, layer.lead)
  {
    RingFits(layer.cfg, layer.State(), layer.history);
  }

  /**
   * Slot after slot, a deciding layer holds what one offline pass over the whole stream would select:
   * the scores of any top-`reps` selection from the distances of all tokens ever routed to the slot.
   */
  ghost predicate KeepsTheTop(cfg: Config, lead: Leader, trail: seq<Decision>, route: seq<nat>) {
    && |Dists(trail)| == |route| && |lead.scores| == cfg.mSlots
    && forall s: nat, offline: seq<nat> | s < cfg.mSlots && IsTopK(ScoresOf(trail, route, s), offline, cfg.reps) ::
         multiset(lead.scores[s]) == multiset(Select(ScoresOf(trail, route, s), offline))
  }

  /** Streaming retention over any number of folds is offline retention. */
  lemma TopOfEverything(layer: RoutedBankLayer)
    requires layer.Valid() && layer.Decides()
    ensures KeepsTheTop(layer.cfg, layer.lead, layer.trail, Labels(layer.assignChunks))
  {
    var cfg, route := layer.cfg, Labels(layer.assignChunks);
    LeadShape(cfg, layer.lead, layer.State(), layer.history, layer.trail, layer.kept);
    hide TrailOk, IsTopK, Select, Pick;
    forall s: nat, offline: seq<nat> | s < cfg.mSlots && IsTopK(ScoresOf(layer.trail, route, s), offline, cfg.reps)
      ensures multiset(layer.lead.scores[s]) == multiset(Select(ScoresOf(layer.trail, route, s), offline))
    {
      StreamingIsOffline(cfg, layer.slots[s], route, s, layer.lead.scores[s], ScoresOf(layer.trail, route, s),
                         layer.kept[s], offline);
    }
  }

  // ---- when the first decision fails --------------------------------------

  /** The tokens pending after `n`, as long as nothing was routed. */
  function Overflow(cfg: Config, n: nat): nat { Max(0, n - cfg.sink - cfg.window) }

  function Seen(chunks: seq<seq<KV>>, k: nat): nat
    requires k <= |chunks|
  {
    |Flatten(chunks[..k])|
  }

  /** Up to chunk `k` too little has overflown to decide on. */
  ghost predicate Undecided(cfg: Config, chunks: seq<seq<KV>>, k: nat)
    requires k <= |chunks|
  {
    forall j | 0 < j <= k :: Overflow(cfg, Seen(chunks, j)) < cfg.routeChunk
  }

  /** Chunk `k` is the first to fill a routing chunk, with fewer tokens than there are slots. */
  ghost predicate TripsAt(cfg: Config, chunks: seq<seq<KV>>, k: nat)
    requires k < |chunks|
  {
    Undecided(cfg, chunks, k) && cfg.routeChunk <= Overflow(cfg, Seen(chunks, k + 1)) < cfg.mSlots
  }

  /** On this stream, cut like this, the first decision fails. */
  ghost predicate RunTrips(cfg: Config, chunks: seq<seq<KV>>) {
    exists k | 0 <= k < |chunks| :: TripsAt(cfg, chunks, k)
  }

  /** No stream and no cut makes the first decision fail exactly when a routing chunk has a token per slot. */
  lemma NeverTripsIff(cfg: Config)
    requires cfg.Ok()
    ensures (forall chunks :: !RunTrips(cfg, chunks)) <==> cfg.routeChunk >= cfg.mSlots
  {
    if cfg.routeChunk < cfg.mSlots {
      var chunk := seq(cfg.sink + cfg.window + cfg.routeChunk, _ => Zero(cfg.dim));
      var chunks := [chunk];
      assert chunks[..1] == chunks && chunks[..1][..0] == [] && Flatten(chunks) == [] + chunk;
      assert TripsAt(cfg, chunks, 0);
      assert RunTrips(cfg, chunks);
    }
  }

  /** Where a deciding layer stands before its first decision. */
  lemma BeforeDeciding(layer: RoutedBankLayer)
    requires layer.Valid() && layer.Decides() && layer.lead.cent == []
    ensures layer.evicted == 0 && |layer.pendTokens| == Overflow(layer.cfg, |layer.history|)
  {
    NoDecisionYet(layer.cfg, layer.lead, layer.State(), layer.history, layer.trail, layer.kept);
    NothingRoutedYet(layer.cfg, layer.State(), layer.history);
  }

  lemma NoDecisionYet(cfg: Config, lead: Leader, b: Bank, h: seq<KV>, trail: seq<Decision>, kept: seq<seq<nat>>)
    requires cfg.Ok() && LeadOk(cfg, lead, b, h, trail, kept) && lead.cent == []
    ensures b.chunks == []
  {
    hide TopSlot;
    if trail != [] {
      TrailHasCentroids(cfg, trail, b.chunks, h, lead);
    }
  }

  lemma TrailHasCentroids(cfg: Config, trail: seq<Decision>, chunks: seq<Assigned>, h: seq<KV>, lead: Leader)
    requires cfg.Ok() && TrailOk(cfg, trail, chunks, h, lead) && trail != []
    ensures lead.cent != []
  {
    hide DecisionOk;
    HasCentroids(cfg, trail[|trail| - 1]);
  }

  lemma HasCentroids(cfg: Config, d: Decision)
    requires cfg.Ok() && DecisionOk(cfg, d)
    ensures |d.after.cent| == cfg.mSlots && d.after.cent != []
  {
    hide Nearest, Distances, Decided, Featured, MeanFollows, FarthestFirst;
  }

  /** Of each of these decisions the mean of the features that slot `s` attracted. */
  ghost predicate MeansOf(trail: seq<Decision>, s: nat, at: seq<nat>, means: seq<Vec>) {
    && |means| == |at| && Increasing(at) && Below(at, |trail|)
    && forall k | 0 <= k < |at| :: MeanAt(trail[at[k]], s, means[k])
  }

  ghost predicate MeanAt(d: Decision, s: nat, mean: Vec) {
    |d.f| == |d.assign| && IsAverage(Pick(d.f, d.assign, s), mean)
  }

  /**
   * Over any run: the centroid of a slot has drifted from its farthest-point start through the means of the
   * features it attracted, one for each decision that gave it a token.
   */
  lemma {:induction false} CentroidOverRun(cfg: Config, trail: seq<Decision>, chunks: seq<Assigned>, h: seq<KV>,
                                           lead: Leader, s: nat)
    returns (at: seq<nat>, means: seq<Vec>)
    requires cfg.Ok() && TrailOk(cfg, trail, chunks, h, lead) && trail != [] && s < cfg.mSlots
    ensures |trail[0].cent| == |lead.cent| == cfg.mSlots && FarthestFirst(Units(cfg, trail[0].f), trail[0].cent)
    ensures MeansOf(trail, s, at, means) && forall i: nat :: i in at <==> i < |trail| && s in trail[i].assign
    ensures Drifted(cfg.momentum, trail[0].cent[s], means, lead.cent[s])
  {
    hide DecisionOk, FarthestFirst, Drifted, MeansOf;
    var n := |trail| - 1;
    HasCentroids(cfg, trail[n]);
    StartsFrom(cfg, trail[n]);
    if n == 0 {
      at, means := [], [];
      NotDrifted(cfg.momentum, trail[0].cent[s]);
      NothingAt(trail, s);
    } else {
      var before := trail[..n];
      TrailHasCentroids(cfg, before, chunks[..n], h, trail[n].before);
      at, means := CentroidOverRun(cfg, before, chunks[..n], h, trail[n].before, s);
      assert forall i | 0 <= i < n :: before[i] == trail[i];
      MeansStay(before, trail, s, at, means);
    }
    if s in trail[n].assign {
      var mean := DecisionDrifts(cfg, trail[n], s);
      DriftedNext(cfg.momentum, trail[0].cent[s], means, trail[n].cent[s], mean, lead.cent[s]);
      MeansSnoc(trail, s, at, means, mean);
      at, means := at + [n], means + [mean];
    } else {
      StaysPut(cfg, trail[n], s);
    }
  }

  lemma NothingAt(trail: seq<Decision>, s: nat)
    ensures MeansOf(trail, s, [], [])
  {
  }

  lemma MeansStay(before: seq<Decision>, trail: seq<Decision>, s: nat, at: seq<nat>, means: seq<Vec>)
    requires MeansOf(before, s, at, means) && before <= trail
    ensures MeansOf(trail, s, at, means) && Below(at, |before|)
  {
    hide MeanAt, Increasing;
  }

  lemma MeansSnoc(trail: seq<Decision>, s: nat, at: seq<nat>, means: seq<Vec>, mean: Vec)
    requires MeansOf(trail, s, at, means) && trail != [] && Below(at, |trail| - 1)
    requires MeanAt(trail[|trail| - 1], s, mean)
    ensures MeansOf(trail, s, at + [|trail| - 1], means + [mean])
  {
    hide MeanAt;
  }

  /** A decision starts from the old centroids, the first one from a farthest-point choice. */
  lemma StartsFrom(cfg: Config, d: Decision)
    requires cfg.Ok() && DecisionOk(cfg, d)
    ensures |d.cent| == cfg.mSlots
    ensures if d.before.cent != [] then d.cent == d.before.cent else FarthestFirst(Units(cfg, d.f), d.cent)
  {
    hide Nearest, Distances, Moves, Decided, Featured, MeanFollows, FarthestFirst;
  }

  lemma DecisionDrifts(cfg: Config, d: Decision, s: nat) returns (mean: Vec)
    requires cfg.Ok() && DecisionOk(cfg, d) && s < |d.cent| == |d.after.cent| && s in d.assign
    ensures MeanAt(d, s, mean) && Drifts(cfg.momentum, d.cent[s], mean, d.after.cent[s])
  {
    hide Nearest, Distances, Decided, Featured, MeanFollows, FarthestFirst, IsAverage, Drifts;
    assert DriftsToMean(cfg.momentum, d.cent[s], Pick(d.f, d.assign, s), d.after.cent[s]);
    mean :| IsAverage(Pick(d.f, d.assign, s), mean) && Drifts(cfg.momentum, d.cent[s], mean, d.after.cent[s]);
  }

  lemma StaysPut(cfg: Config, d: Decision, s: nat)
    requires cfg.Ok() && DecisionOk(cfg, d) && s < |d.cent| == |d.after.cent| && s !in d.assign
    ensures d.after.cent[s] == d.cent[s]
  {
    hide Nearest, Distances, Decided, Featured, MeanFollows, FarthestFirst;
  }

  lemma NothingRoutedYet(cfg: Config, b: Bank, h: seq<KV>)
    requires Sound(cfg, b, h) && b.chunks == []
    ensures b.evicted == 0 && |b.win.pend| == Overflow(cfg, |h|)
  {
    hide SlotOk, ChunksOk;
  }

  /** A decision leaves centroids, and once there are any they stay. */
  lemma FirstDecision(cfg: Config, lead: Leader, a: Bank, log: seq<Op>, trail: seq<Decision>, log': seq<Op>,
                      lead': Leader, trail': seq<Decision>)
    requires cfg.Ok() && Led(cfg, lead, a, log, trail, log', lead', trail')
    ensures |a.win.pend| < cfg.routeChunk ==> lead' == lead
    ensures lead.cent != [] || |a.win.pend| >= cfg.routeChunk ==> lead'.cent != []
  {
    hide DecisionOk;
    if |a.win.pend| >= cfg.routeChunk {
      HasCentroids(cfg, trail'[|trail|]);
    }
  }

  /** The tokens pending when the next chunk of an undecided layer has come in. */
  lemma NextOverflow(layer: RoutedBankLayer, chunk: seq<KV>)
    requires layer.Valid() && layer.Decides() && layer.lead.cent == [] && |layer.State().win.sink| <= layer.cfg.sink
    ensures |Admitted(layer.cfg, layer.State(), chunk).win.pend| == Overflow(layer.cfg, |layer.history + chunk|)
  {
    hide LeadOk, Materialized, Admit;
    BeforeDeciding(layer);
    AdmittedSound(layer.cfg, layer.State(), layer.history, chunk);
    NoDecisionYet(layer.cfg, layer.lead, layer.State(), layer.history, layer.trail, layer.kept);
    hide Sound;
    NothingRoutedYet(layer.cfg, Admitted(layer.cfg, layer.State(), chunk), layer.history + chunk);
  }

  /** How far a run has come: undecided, or past its first decision, which did not fail. */
  ghost predicate Underway(cfg: Config, lead: Leader, chunks: seq<seq<KV>>, k: nat)
    requires k <= |chunks|
  {
    if lead.cent == [] then Undecided(cfg, chunks, k)
    else !Undecided(cfg, chunks, k) && forall j | 0 <= j < k :: !TripsAt(cfg, chunks, j)
  }

  lemma UndecidedNext(cfg: Config, chunks: seq<seq<KV>>, k: nat)
    requires k < |chunks|
    ensures Undecided(cfg, chunks, k + 1)
       <==> Undecided(cfg, chunks, k) && Overflow(cfg, Seen(chunks, k + 1)) < cfg.routeChunk
  {
    hide Overflow, Seen;
  }

  /** The next chunk of a run: the layer trips on it exactly when the run does. */
  lemma UnderwayNext(cfg: Config, lead: Leader, chunks: seq<seq<KV>>, k: nat, pend: nat)
    requires cfg.Ok() && k < |chunks| && Underway(cfg, lead, chunks, k)
    requires lead.cent == [] ==> pend == Overflow(cfg, Seen(chunks, k + 1))
    ensures TripsAt(cfg, chunks, k) <==> lead.cent == [] && cfg.routeChunk <= pend < cfg.mSlots
    ensures !TripsAt(cfg, chunks, k) && (lead.cent != [] || pend >= cfg.routeChunk) ==>
      !Undecided(cfg, chunks, k + 1) && forall j | 0 <= j < k + 1 :: !TripsAt(cfg, chunks, j)
    ensures lead.cent == [] && pend < cfg.routeChunk ==> Undecided(cfg, chunks, k + 1)
  {
    hide Overflow, Seen, Undecided;
    UndecidedNext(cfg, chunks, k);
    if lead.cent == [] {
      forall j | 0 <= j < k ensures !TripsAt(cfg, chunks, j) {
        UndecidedEarlier(cfg, chunks, j, k);
      }
    }
  }

  lemma UndecidedEarlier(cfg: Config, chunks: seq<seq<KV>>, j: nat, k: nat)
    requires j < k <= |chunks| && Undecided(cfg, chunks, k)
    ensures !TripsAt(cfg, chunks, j)
  {
    assert Overflow(cfg, Seen(chunks, j + 1)) < cfg.routeChunk;
  }

  /** One chunk of a run. */
  method FeedOne(layer: RoutedBankLayer, chunks: seq<seq<KV>>, k: nat) returns (failed: bool)
    requires layer.Valid() && layer.coord == null && k < |chunks| && layer.history == Flatten(chunks[..k])
    requires Underway(layer.cfg, layer.lead, chunks, k)
    modifies layer
    ensures failed <==> TripsAt(layer.cfg, chunks, k)
    ensures !failed ==>
      layer.Valid() && layer.history == Flatten(chunks[..k + 1]) && Underway(layer.cfg, layer.lead, chunks, k + 1)
  {
    hide Sound, LeadOk, Materialized, Step, Admit, Led, Undecided, Overflow, TripsAt;
    assert chunks[..k + 1][..k] == chunks[..k];
    SinkWithin(layer);
    if layer.lead.cent == [] {
      NextOverflow(layer, chunks[k]);
    }
    ghost var lead, a, log, trail := layer.lead, Admitted(layer.cfg, layer.State(), chunks[k]), layer.Log(),
      layer.trail;
    UnderwayNext(layer.cfg, lead, chunks, k, |a.win.pend|);
    var r := layer.Update(chunks[k]);
    failed := r.Raised?;
    if !failed {
      FirstDecision(layer.cfg, lead, a, log, trail, layer.Log(), layer.lead, layer.trail);
    }
  }

  /**
   * A fresh layer fed any chunks. It fails exactly when the stream, cut like this, makes the first decision
   * fail; else its history is the stream, and every slot holds the top of it.
   */
  method RunAlone(cfg: Config, chunks: seq<seq<KV>>) returns (layer: RoutedBankLayer, failed: bool)
    requires cfg.Ok()
    ensures fresh(layer) && (failed <==> RunTrips(cfg, chunks))
    ensures !failed ==>
      && layer.Valid() && layer.Decides() && layer.cfg == cfg && layer.history == Flatten(chunks)
      && TrailOk(cfg, layer.trail, layer.assignChunks, Flatten(chunks), layer.lead)
      && KeepsTheTop(cfg, layer.lead, layer.trail, Labels(layer.assignChunks))
  {
    hide Sound, LeadOk, Materialized, KeepsTheTop, TrailOk, TripsAt;
    layer := new RoutedBankLayer(cfg, null, true);
    var i := 0;
    while i < |chunks|
      invariant 0 <= i <= |chunks| && fresh(layer) && layer.Valid() && layer.coord == null && layer.cfg == cfg
      invariant layer.history == Flatten(chunks[..i]) && Underway(cfg, layer.lead, chunks, i)
      invariant forall j | 0 <= j < i :: !TripsAt(cfg, chunks, j)
    {
      failed := FeedOne(layer, chunks, i);
      if failed {
        return;
      }
      i := i + 1;
    }
    assert chunks[..i] == chunks;
    failed := false;
    TrailCovers(layer);
    TopOfEverything(layer);
  }

  // ---- one leader and its followers ---------------------------------------

  /** A cache: the leader first, every layer on the same log, all in the leader's structure. */
  ghost predicate Synced(layers: seq<RoutedBankLayer>, coord: Coord)
    reads layers, coord, set i | 0 <= i < |layers| && layers[i].coord != null :: layers[i].coord
  {
    && layers != []
    && (forall i, j | 0 <= i < j < |layers| :: layers[i] != layers[j])
    && (forall i | 0 <= i < |layers| ::
          && layers[i].Valid() && layers[i].coord == coord && (layers[i].isLeader <==> i == 0)
          && layers[i].cfg.SameLimits(layers[0].cfg)
          && Agree(layers[0].State(), layers[i].State()))
    && layers[0].opCursor == |coord.log|
  }

  lemma EmptiesAgree(a: Config, b: Config)
    requires a.SameLimits(b)
    ensures Agree(Empty(a), Empty(b))
  {
  }

  /** `build_cache`: fresh layers on one fresh log, the first of them the leader. */
  method BuildCache(cfgs: seq<Config>) returns (layers: seq<RoutedBankLayer>, coord: Coord)
    requires cfgs != [] && forall i | 0 <= i < |cfgs| :: cfgs[i].Ok() && cfgs[i].SameLimits(cfgs[0])
    ensures fresh(coord) && fresh(layers) && Synced(layers, coord) && |layers| == |cfgs|
    ensures forall i | 0 <= i < |layers| :: layers[i].cfg == cfgs[i] && layers[i].history == []
  {
    hide Sound, LeadOk, Materialized, Agree, Empty;
    coord := new Coord();
    layers := [];
    while |layers| < |cfgs|
      invariant |layers| <= |cfgs| && fresh(coord) && coord.log == []
      invariant forall i | 0 <= i < |layers| ::
        && fresh(layers[i]) && layers[i].Valid() && layers[i].coord == coord && (layers[i].isLeader <==> i == 0)
        && layers[i].cfg == cfgs[i] && layers[i].history == [] && layers[i].State() == Empty(cfgs[i])
      invariant forall i, j | 0 <= i < j < |layers| :: layers[i] != layers[j]
    {
      var layer := new RoutedBankLayer(cfgs[|layers|], coord, layers == []);
      layers := layers + [layer];
    }
    forall i | 0 <= i < |layers| ensures Agree(layers[0].State(), layers[i].State()) {
      EmptiesAgree(layers[0].cfg, layers[i].cfg);
    }
  }

  /** A follower takes its chunk after the leader: it replays the leader's decision and agrees again. */
  method Follow(layer: RoutedBankLayer, coord: Coord, chunk: seq<KV>, ghost cfg: Config, ghost before: Bank,
                ghost lead: seq<KV>, ghost after: Bank)
    returns (out: seq<KV>)
    requires layer.Valid() && layer.coord == coord && !layer.isLeader && cfg.SameLimits(layer.cfg)
    requires |before.win.sink| <= cfg.sink && Agree(before, layer.State()) && |lead| == |chunk|
    requires Step(cfg, before, lead, coord.log) == Done(after)
    modifies layer, coord
    ensures layer.Valid() && coord.log == old(coord.log) && Agree(after, layer.State())
    ensures layer.history == old(layer.history) + chunk && out == old(layer.keys) + chunk
  {
    hide Sound, LeadOk, Materialized, Step, Agree;
    SinkWithin(layer);
    ReplayAgrees(cfg, before, lead, layer.cfg, layer.State(), chunk, coord.log);
    var r := layer.Update(chunk);
    out := r.value;
  }

  lemma SinkWithin(layer: RoutedBankLayer)
    requires layer.Valid()
    ensures |layer.State().win.sink| <= layer.cfg.sink
  {
    AdmittedSound(layer.cfg, layer.State(), layer.history, []);
  }

  /** The followers take their chunks one after another, each replaying what the leader has logged. */
  method FollowAll(layers: seq<RoutedBankLayer>, coord: Coord, chunks: seq<seq<KV>>, first: seq<KV>, ghost before: Bank)
    returns (outs: seq<seq<KV>>)
    requires layers != [] && Fits(chunks, |layers|) && forall i, j | 0 <= i < j < |layers| :: layers[i] != layers[j]
    requires forall i | 0 <= i < |layers| ::
      layers[i].Valid() && layers[i].coord == coord && layers[i].cfg.SameLimits(layers[0].cfg)
    requires forall i | 1 <= i < |layers| :: !layers[i].isLeader && Agree(before, layers[i].State())
    requires |before.win.sink| <= layers[0].cfg.sink
    requires Step(layers[0].cfg, before, chunks[0], coord.log) == Done(layers[0].State())
    modifies layers[1..], coord
    ensures coord.log == old(coord.log) && |outs| == |layers| && outs[0] == first
    ensures forall i | 1 <= i < |layers| ::
      && layers[i].Valid() && Agree(layers[0].State(), layers[i].State())
      && layers[i].history == old(layers[i].history) + chunks[i] && outs[i] == old(layers[i].keys) + chunks[i]
  {
    hide Sound, LeadOk, Materialized, Step, Agree;
    outs := [first];
    ghost var after := layers[0].State();
    var i := 1;
    while i < |layers|
      invariant 1 <= i <= |layers| && |outs| == i && outs[0] == first
      invariant coord.log == old(coord.log) && layers[0].State() == after
      invariant forall j | 1 <= j < i ::
        && layers[j].Valid() && Agree(after, layers[j].State())
        && layers[j].history == old(layers[j].history) + chunks[j]
        && outs[j] == old(layers[j].keys) + chunks[j]
      invariant forall j | i <= j < |layers| ::
        && layers[j].State() == old(layers[j].State()) && layers[j].history == old(layers[j].history)
        && layers[j].keys == old(layers[j].keys) && layers[j].Valid()
    {
      var out := Follow(layers[i], coord, chunks[i], layers[0].cfg, before, chunks[0], after);
      outs := outs + [out];
      i := i + 1;
    }
  }

  /**
   * What the followers hold after any run: in slot `s` the positions of a top-`reps` selection by the
   * leader's distances, and at each of them the token of their own stream.
   */
  lemma FollowersKeepTheTop(layers: seq<RoutedBankLayer>, coord: Coord, i: nat, s: nat)
    requires Synced(layers, coord) && i < |layers| && s < layers[0].cfg.mSlots
    ensures var top, route := layers[0], Labels(layers[i].assignChunks);
            && KeepsTheTop(top.cfg, top.lead, top.trail, route) && |top.kept| == |layers[i].slots| == top.cfg.mSlots
            && IsTopK(ScoresOf(top.trail, route, s), top.kept[s], top.cfg.reps)
            && Below(top.kept[s], |MemberPositions(top.cfg, route, s)|)
            && layers[i].slots[s].repPos == Select(MemberPositions(top.cfg, route, s), top.kept[s])
            && RepsOk(top.cfg.sink, layers[i].slots[s], s, layers[i].history, route)
  {
    var top, b := layers[0], layers[i].State();
    assert Agree(top.State(), b);
    TopOfEverything(top);
    hide TrailOk, IsTopK, Select, Pick, KeepsTheTop;
    assert TopSlot(top.cfg, top.slots[s], Labels(top.assignChunks), s, top.lead.scores[s],
                   ScoresOf(top.trail, Labels(top.assignChunks), s), top.kept[s]);
    assert SlotOk(layers[i].cfg.dim, layers[i].cfg.sink, b.slots[s], s, layers[i].history, Labels(b.chunks));
  }

  /** The leader is past its first decision, or configured so that it cannot fail. */
  ghost predicate Started(layer: RoutedBankLayer)
    reads layer
  {
    layer.lead.cent != [] || layer.cfg.routeChunk >= layer.cfg.mSlots
  }

  /**
   * One forward pass, leader first: it fails only where the leader's first decision does, no follower
   * faults, and the layers agree again.
   */
  method ForwardChunk(layers: seq<RoutedBankLayer>, coord: Coord, chunks: seq<seq<KV>>)
    returns (outs: Outcome<seq<seq<KV>>>)
    requires Synced(layers, coord)
    requires Fits(chunks, |layers|)
    modifies layers, coord
    ensures |old(layers[0].State()).win.sink| <= layers[0].cfg.sink
    ensures outs.Raised? <==>
      Trips(layers[0].cfg, old(layers[0].lead), Admitted(layers[0].cfg, old(layers[0].State()), chunks[0]))
    ensures old(Started(layers[0])) ==> outs.Done? && Started(layers[0])
    ensures outs.Done? ==>
      && Synced(layers, coord) && |outs.value| == |layers| && old(coord.log) <= coord.log
      && forall i | 0 <= i < |layers| ::
           && layers[i].history == old(layers[i].history) + chunks[i]
           && outs.value[i] == old(layers[i].keys) + chunks[i]
  {
    hide Sound, LeadOk, Materialized, Step, Agree, Led, Admit;
    ghost var before, lead, trail, log := layers[0].State(), layers[0].lead, layers[0].trail, coord.log;
    var first := layers[0].Update(chunks[0]);
    if first.Raised? {
      return Raised(first.fault);
    }
    FirstDecision(layers[0].cfg, lead, Admitted(layers[0].cfg, before, chunks[0]), log, trail, coord.log,
                  layers[0].lead, layers[0].trail);
    AgreeSelf(layers[0].State());
    var all := FollowAll(layers, coord, chunks, first.value, before);
    outs := Done(all);
  }

  /** Any number of forward passes: the layers stay in step and each has seen its own stream. */
  method ForwardAll(layers: seq<RoutedBankLayer>, coord: Coord, rounds: seq<seq<seq<KV>>>)
    requires Synced(layers, coord) && |layers| > 0 && Started(layers[0])
    requires forall k | 0 <= k < |rounds| :: Fits(rounds[k], |layers|)
    modifies layers, coord
    ensures Synced(layers, coord) && |layers| > 0 && Started(layers[0])
    ensures forall i | 0 <= i < |layers| :: layers[i].history == old(layers[i].history) + Column(rounds, i)
  {
    hide Synced, Started, Trips, Admitted;
    assert Column<KV>(rounds[..0], 0) == [];
    var k := 0;
    while k < |rounds|
      invariant 0 <= k <= |rounds| && Synced(layers, coord) && |layers| > 0 && Started(layers[0])
      invariant forall i | 0 <= i < |layers| :: layers[i].history == old(layers[i].history) + Column(rounds[..k], i)
    {
      assert Fits(rounds[k], |layers|);
      assert rounds[..k + 1][..k] == rounds[..k];
      var _ := ForwardChunk(layers, coord, rounds[k]);
      forall i | 0 <= i < |layers|
        ensures layers[i].history == old(layers[i].history) + Column(rounds[..k + 1], i)
      {
        Associative(old(layers[i].history), Column(rounds[..k], i), rounds[k][i]);
      }
      k := k + 1;
    }
    assert rounds[..k] == rounds;
  }
}
