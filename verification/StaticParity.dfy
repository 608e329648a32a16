/**
 * The decode gate: greedy decoding on static rings, eager or replayed, emits the tokens of greedy
 * decoding on the dynamic layers they were converted from, for every network that ignores the order
 * of cache entries.
 */
module StaticParity {
  import opened Lists
  import opened Tokens
  import opened SinkRing
  import opened StaticRing
  import opened GraphWarmup

  /**
   * A decoder as its cache sees it: layer `i` projects the hidden state to the token it appends and
   * attends to what its update returns.
   */
  datatype Net<!H> = Net(embed: (int, nat) -> H, project: (H, nat) -> KV, attend: (H, nat, seq<KV>) -> H,
                         head: H -> int)

  /** Attention without a mask: the order of the entries does not matter. */
  ghost predicate OrderBlind<H(!new)>(net: Net<H>) {
    forall h, i, a, b | multiset(a) == multiset(b) :: net.attend(h, i, a) == net.attend(h, i, b)
  }

  // ---- the network on static rings ----------------------------------------

  /** What a static layer returns for its next token: its whole buffer. */
  function Shown(r: Ring<KV>, x: KV): seq<KV> {
    if r.Ok() then r.Write(x).cells else r.cells
  }

  /** The hidden state in front of layer `i`. */
  function Hidden<H>(net: Net<H>, rings: seq<Ring<KV>>, ids: int, pos: nat, i: nat): H {
    if i == 0 || i > |rings| then net.embed(ids, pos)
    else
      var h := Hidden(net, rings, ids, pos, i - 1);
      net.attend(h, i - 1, Shown(rings[i - 1], net.project(h, i - 1)))
  }

  function AsModel<H>(net: Net<H>): Model {
    Model((rings: seq<Ring<KV>>, ids: int, pos: nat, i: nat) => net.project(Hidden(net, rings, ids, pos, i), i),
          (rings: seq<Ring<KV>>, ids: int, pos: nat) => net.head(Hidden(net, rings, ids, pos, |rings|)))
  }

  // ---- the network on dynamic layers --------------------------------------

  /** What a decode step on dynamic layers works on. */
  datatype Dyn = Dyn(cache: seq<Prefilled>, ids: int, pos: nat)
  {
    ghost predicate Ok() { forall i | 0 <= i < |cache| :: cache[i].layer.Ok() }

    /** Every layer stays at its capacity. */
    ghost predicate AllDrop() { forall i | 0 <= i < |cache| :: cache[i].layer.Drops() }
  }

  function DynHidden<H>(net: Net<H>, cache: seq<Prefilled>, ids: int, pos: nat, i: nat): H {
    if i == 0 || i > |cache| then net.embed(ids, pos)
    else
      var h := DynHidden(net, cache, ids, pos, i - 1);
      net.attend(h, i - 1, cache[i - 1].keys + [net.project(h, i - 1)])
  }

  /** The token layer `i` appends. */
  function DynToken<H>(net: Net<H>, d: Dyn, i: nat): KV {
    net.project(DynHidden(net, d.cache, d.ids, d.pos, i), i)
  }

  function Take(p: Prefilled, x: KV): Prefilled
    requires p.layer.Ok()
  {
    Prefilled(p.layer, p.layer.After(p.keys, x), p.cumulativeLength + 1)
  }

  ghost function DynNext<H>(net: Net<H>, d: Dyn): (n: Dyn)
    requires d.Ok()
    ensures n.Ok() && |n.cache| == |d.cache| && n.pos == d.pos + 1
    ensures forall i | 0 <= i < |d.cache| :: n.cache[i] == Take(d.cache[i], DynToken(net, d, i))
  {
    Dyn(seq(|d.cache|, i requires 0 <= i < |d.cache| => Take(d.cache[i], DynToken(net, d, i))),
        net.head(DynHidden(net, d.cache, d.ids, d.pos, |d.cache|)), d.pos + 1)
  }

  ghost function DynSteps<H>(net: Net<H>, d: Dyn, n: nat): (r: Dyn)
    requires d.Ok()
    ensures r.Ok() && |r.cache| == |d.cache|
  {
    if n == 0 then d else DynNext(net, DynSteps(net, d, n - 1))
  }

  // ---- the two side by side -----------------------------------------------

  /** Each ring keeps what its dynamic layer stores, at capacity. */
  ghost predicate Mirrors(rings: seq<Ring<KV>>, cache: seq<Prefilled>) {
    && |rings| == |cache|
    && forall i | 0 <= i < |rings| :: MirrorsOne(rings[i], cache[i])
  }

  ghost predicate MirrorsOne(r: Ring<KV>, p: Prefilled) {
    && r.Ok() && p.layer.Ok() && r.start == p.layer.Start()
    && r.Kept() == p.keys && |p.keys| == p.layer.Stored()
  }

  lemma SameEntries(r: Ring<KV>, p: Prefilled, x: KV)
    requires MirrorsOne(r, p)
    ensures multiset(Shown(r, x)) == multiset(p.keys + [x])
  {
    WriteShifts(r, x);
    OldestFirstIsRotation(r.Write(x));
  }

  lemma MirrorTakes(r: Ring<KV>, p: Prefilled, x: KV)
    requires MirrorsOne(r, p) && p.layer.Drops()
    ensures MirrorsOne(r.Write(x), Take(p, x))
  {
    WriteShifts(r, x);
    AfterAtCapacity(p.layer, p.keys, x);
  }

  lemma {:induction false} SameHidden<H(!new)>(net: Net<H>, rings: seq<Ring<KV>>, cache: seq<Prefilled>, ids: int,
                                               pos: nat, i: nat)
    requires Mirrors(rings, cache) && OrderBlind(net) && i <= |rings|
    ensures Hidden(net, rings, ids, pos, i) == DynHidden(net, cache, ids, pos, i)
  {
    hide MirrorsOne, Shown;
    if i == 0 {
    } else {
      SameHidden(net, rings, cache, ids, pos, i - 1);
      var h := Hidden(net, rings, ids, pos, i - 1);
      SameEntries(rings[i - 1], cache[i - 1], net.project(h, i - 1));
    }
  }

  /** One step: the same next id, and the rings go on keeping what the layers store. */
  lemma MirrorStep<H(!new)>(net: Net<H>, s: Machine, d: Dyn)
    requires s.Ok() && d.Ok() && Mirrors(s.rings, d.cache) && s.ids == d.ids && s.pos == d.pos && OrderBlind(net)
    ensures s.Next(AsModel(net)).ids == DynNext(net, d).ids && s.Next(AsModel(net)).pos == DynNext(net, d).pos
    ensures d.AllDrop() ==> Mirrors(s.Next(AsModel(net)).rings, DynNext(net, d).cache) && DynNext(net, d).AllDrop()
  {
    hide MirrorsOne, Hidden, DynHidden, OrderBlind;
    SameHidden(net, s.rings, d.cache, d.ids, d.pos, |s.rings|);
    var n, e := s.Next(AsModel(net)), DynNext(net, d);
    if d.AllDrop() {
      forall i | 0 <= i < |s.rings| ensures MirrorsOne(n.rings[i], e.cache[i]) {
        SameHidden(net, s.rings, d.cache, d.ids, d.pos, i);
        MirrorTakes(s.rings[i], d.cache[i], DynToken(net, d, i));
      }
    }
  }

  lemma {:induction false} MirrorSteps<H(!new)>(net: Net<H>, s: Machine, d: Dyn, n: nat)
    requires s.Ok() && d.Ok() && Mirrors(s.rings, d.cache) && s.ids == d.ids && s.pos == d.pos && OrderBlind(net)
    requires d.AllDrop() || n <= 1
    ensures Steps(AsModel(net), s, n).ids == DynSteps(net, d, n).ids
      && Steps(AsModel(net), s, n).pos == DynSteps(net, d, n).pos
    ensures d.AllDrop() ==>
      Mirrors(Steps(AsModel(net), s, n).rings, DynSteps(net, d, n).cache) && DynSteps(net, d, n).AllDrop()
  {
    hide Mirrors, OrderBlind, AsModel, DynNext, Dyn.AllDrop;
    if n == 0 {
    } else {
      MirrorSteps(net, s, d, n - 1);
      MirrorStep(net, Steps(AsModel(net), s, n - 1), DynSteps(net, d, n - 1));
    }
  }

  /** The static rings a prefilled cache at capacity is copied into. */
  ghost function Rings(cache: seq<Prefilled>, zero: KV): (r: seq<Ring<KV>>)
    requires forall i | 0 <= i < |cache| :: cache[i].layer.Ok()
    ensures |r| == |cache| && forall i | 0 <= i < |r| :: r[i] == Convert(cache[i].layer, cache[i].keys, zero)
  {
    seq(|cache|, i requires 0 <= i < |cache| => Convert(cache[i].layer, cache[i].keys, zero))
  }

  lemma ConvertMirrors(cache: seq<Prefilled>, zero: KV)
    requires forall i | 0 <= i < |cache| :: cache[i].layer.Ok() && cache[i].AtCapacity()
    ensures Mirrors(Rings(cache, zero), cache)
  {
    forall i | 0 <= i < |cache| ensures MirrorsOne(Rings(cache, zero)[i], cache[i]) {
      KeptIsDynamic(cache[i].layer, cache[i].keys, zero, []);
    }
  }

  // ---- exactly when the gate holds ----------------------------------------

  /** Both decodings emit the same id at every step up to `n`. */
  ghost predicate SameTokens<H>(net: Net<H>, cache: seq<Prefilled>, zero: KV, first: int, pos: nat, n: nat)
    requires forall i | 0 <= i < |cache| :: cache[i].layer.Ok() && cache[i].AtCapacity()
  {
    ConvertOk(cache, zero);
    forall k: nat | k <= n ::
      Steps(AsModel(net), Machine(Rings(cache, zero), first, pos), k).ids
        == DynSteps(net, Dyn(cache, first, pos), k).ids
  }

  lemma ConvertOk(cache: seq<Prefilled>, zero: KV)
    requires forall i | 0 <= i < |cache| :: cache[i].layer.Ok() && cache[i].AtCapacity()
    ensures forall i | 0 <= i < |cache| :: Rings(cache, zero)[i].Ok()
  {
  }

  /** A network that counts the entries it attends to. */
  function Counting(zero: KV): Net<int> {
    Net((ids, pos) => 0, (h, i) => zero, (h, i, entries) => h + |entries|, h => h)
  }

  lemma CountingIsBlind(zero: KV)
    ensures OrderBlind(Counting(zero))
  {
    forall h, i, a: seq<KV>, b: seq<KV> | multiset(a) == multiset(b)
      ensures Counting(zero).attend(h, i, a) == Counting(zero).attend(h, i, b)
    {
      assert |a| == |multiset(a)| == |multiset(b)| == |b|;
    }
  }

  /** After two steps a layer that does not drop shows more entries than its static ring. */
  lemma {:induction false} CountsDiffer(zero: KV, s: Machine, d: Dyn, i: nat)
    requires s.Ok() && d.Ok() && |s.rings| == |d.cache| && i <= |d.cache|
    requires forall j | 0 <= j < i :: |s.rings[j].cells| <= |d.cache[j].keys| + 1
    ensures Hidden(Counting(zero), s.rings, s.ids, s.pos, i) <= DynHidden(Counting(zero), d.cache, d.ids, d.pos, i)
    ensures (exists j :: 0 <= j < i && |s.rings[j].cells| <= |d.cache[j].keys|) ==>
      Hidden(Counting(zero), s.rings, s.ids, s.pos, i) < DynHidden(Counting(zero), d.cache, d.ids, d.pos, i)
  {
    if i == 0 {
    } else {
      CountsDiffer(zero, s, d, i - 1);
    }
  }

  lemma GrowsPastCapacity(p: Prefilled, zero: KV, x: KV)
    requires p.layer.Ok() && p.AtCapacity()
    ensures |Convert(p.layer, p.keys, zero).cells| <= |Take(p, x).keys| + 1
    ensures !p.layer.Drops() ==> |Convert(p.layer, p.keys, zero).cells| <= |Take(p, x).keys|
  {
    if p.layer.Drops() {
      AfterAtCapacity(p.layer, p.keys, x);
    }
  }

  lemma CountingDiffers(cache: seq<Prefilled>, zero: KV, first: int, pos: nat)
    requires forall i | 0 <= i < |cache| :: cache[i].layer.Ok() && cache[i].AtCapacity()
    requires !Dyn(cache, first, pos).AllDrop()
    ensures !SameTokens(Counting(zero), cache, zero, first, pos, 2)
  {
    hide Hidden, DynHidden, Dyn.AllDrop;
    ConvertOk(cache, zero);
    var net, s, d := Counting(zero), Machine(Rings(cache, zero), first, pos), Dyn(cache, first, pos);
    var s1, d1 := Steps(AsModel(net), s, 1), DynSteps(net, d, 1);
    assert s1 == s.Next(AsModel(net)) && d1 == DynNext(net, d) by {
      assert Steps(AsModel(net), s, 0) == s && DynSteps(net, d, 0) == d;
    }
    forall j | 0 <= j < |cache|
      ensures |s1.rings[j].cells| <= |d1.cache[j].keys| + 1
      ensures !cache[j].layer.Drops() ==> |s1.rings[j].cells| <= |d1.cache[j].keys|
    {
      GrowsPastCapacity(cache[j], zero, DynToken(net, d, j));
    }
    OneGrows(d);
    CountsDiffer(zero, s1, d1, |cache|);
    assert Steps(AsModel(net), s, 2).ids == s1.Next(AsModel(net)).ids
        && DynSteps(net, d, 2).ids == DynNext(net, d1).ids;
  }

  lemma OneGrows(d: Dyn)
    requires !d.AllDrop()
    ensures exists j :: 0 <= j < |d.cache| && !d.cache[j].layer.Drops()
  {
  }

  /**
   * For every cache at capacity and every number of steps: all networks that ignore the order of
   * entries emit the same tokens on static rings as on the dynamic layers exactly when every layer
   * stays at its capacity or at most one step is taken.
   */
  lemma StaticEqualsDynamicIff(cache: seq<Prefilled>, zero: KV, first: int, pos: nat, n: nat)
    requires forall i | 0 <= i < |cache| :: cache[i].layer.Ok() && cache[i].AtCapacity()
    ensures (forall net: Net<int> | OrderBlind(net) :: SameTokens(net, cache, zero, first, pos, n))
       <==> n <= 1 || Dyn(cache, first, pos).AllDrop()
  {
    hide OrderBlind, SameTokens, Dyn.AllDrop;
    if n <= 1 || Dyn(cache, first, pos).AllDrop() {
      forall net: Net<int> | OrderBlind(net) ensures SameTokens(net, cache, zero, first, pos, n) {
        TokensAgree(net, cache, zero, first, pos, n);
      }
    } else {
      CountingIsBlind(zero);
      CountingDiffers(cache, zero, first, pos);
      MoreSteps(Counting(zero), cache, zero, first, pos, n);
    }
  }

  lemma MoreSteps<H>(net: Net<H>, cache: seq<Prefilled>, zero: KV, first: int, pos: nat, n: nat)
    requires forall i | 0 <= i < |cache| :: cache[i].layer.Ok() && cache[i].AtCapacity()
    requires n >= 2
    ensures SameTokens(net, cache, zero, first, pos, n) ==> SameTokens(net, cache, zero, first, pos, 2)
  {
    hide AsModel, Steps, DynSteps;
  }

  lemma TokensAgree<H(!new)>(net: Net<H>, cache: seq<Prefilled>, zero: KV, first: int, pos: nat, n: nat)
    requires forall i | 0 <= i < |cache| :: cache[i].layer.Ok() && cache[i].AtCapacity()
    requires OrderBlind(net) && (n <= 1 || Dyn(cache, first, pos).AllDrop())
    ensures SameTokens(net, cache, zero, first, pos, n)
  {
    hide AsModel, OrderBlind, Dyn.AllDrop, Mirrors;
    ConvertOk(cache, zero);
    ConvertMirrors(cache, zero);
    forall k: nat | k <= n
      ensures Steps(AsModel(net), Machine(Rings(cache, zero), first, pos), k).ids
        == DynSteps(net, Dyn(cache, first, pos), k).ids
    {
      MirrorSteps(net, Machine(Rings(cache, zero), first, pos), Dyn(cache, first, pos), k);
    }
  }

  // ---- decoding on the dynamic layers -------------------------------------

  /** The sliding-window layer: it stores the last `size - 1` tokens and returns them with the new one. */
  class SlidingWindowLayer {
    const size: nat
    var keys: seq<KV>
    var cumulativeLength: nat

    constructor (size: nat, keys: seq<KV>, cumulativeLength: nat)
      ensures this.size == size && this.keys == keys && this.cumulativeLength == cumulativeLength
    {
      this.size, this.keys, this.cumulativeLength := size, keys, cumulativeLength;
    }

    method Update(chunk: seq<KV>) returns (full: seq<KV>)
      requires size >= 1
      modifies this
      ensures full == old(keys) + chunk && keys == Slide(size, old(keys), chunk)
      ensures cumulativeLength == old(cumulativeLength) + |chunk|
    {
      full := keys + chunk;
      keys := if |full| < size then full else full[|full| - (size - 1)..];
      cumulativeLength := cumulativeLength + |chunk|;
    }
  }

  datatype Layer = Sinks(sinks: SinkRingLayer) | Slides(slides: SlidingWindowLayer)
  {
    function Object(): object { if Sinks? then sinks else slides }

    ghost predicate Valid()
      reads Object()
    {
      if Sinks? then sinks.Valid() else slides.size >= 1
    }

    function State(): Prefilled
      reads Object()
    {
      if Sinks? then Prefilled(SinkAndRing(sinks.sink, sinks.window), sinks.keys, sinks.cumulativeLength)
      else Prefilled(Sliding(slides.size), slides.keys, slides.cumulativeLength)
    }

    method Update(x: KV) returns (full: seq<KV>)
      requires Valid()
      modifies Object()
      ensures Valid() && full == old(State()).keys + [x] && State() == Take(old(State()), x)
    {
      match this
      case Sinks(l) => full := l.Update([x]);
      case Slides(l) => full := l.Update([x]);
    }
  }

  ghost function Objects(layers: seq<Layer>): set<object> { set l | l in layers :: l.Object() }

  /** Distinct layers in the states of `d`. */
  ghost predicate Holds(layers: seq<Layer>, cache: seq<Prefilled>)
    reads Objects(layers)
  {
    && |cache| == |layers|
    && (forall i, j | 0 <= i < j < |layers| :: layers[i].Object() != layers[j].Object())
    && forall i | 0 <= i < |layers| :: layers[i].Valid() && layers[i].State() == cache[i] && cache[i].layer.Ok()
  }

  method UpdateLayer(layers: seq<Layer>, i: nat, x: KV) returns (full: seq<KV>)
    requires i < |layers| && forall j, k | 0 <= j < k < |layers| :: layers[j].Object() != layers[k].Object()
    requires forall j | 0 <= j < |layers| :: layers[j].Valid()
    modifies Objects(layers)
    ensures old(layers[i].State()).layer.Ok()
    ensures full == old(layers[i].State()).keys + [x] && layers[i].State() == Take(old(layers[i].State()), x)
    ensures forall j | 0 <= j < |layers| ::
      layers[j].Valid() && (j != i ==> layers[j].State() == old(layers[j].State()))
  {
    full := layers[i].Update(x);
  }

  /** One forward pass: every layer appends its token and returns what the next hidden state attends to. */
  method DynamicForward<H(!new)>(net: Net<H>, layers: seq<Layer>, ids: int, pos: nat, ghost d: Dyn) returns (next: int)
    requires Holds(layers, d.cache) && d.Ok() && ids == d.ids && pos == d.pos
    modifies Objects(layers)
    ensures Holds(layers, DynNext(net, d).cache) && next == DynNext(net, d).ids
  {
    hide Take, DynHidden, Layer.Valid, Layer.State, Layer.Object;
    var h := net.embed(ids, pos);
    var i := 0;
    FirstHidden(net, d.cache, ids, pos);
    while i < |layers|
      invariant 0 <= i <= |layers| && h == DynHidden(net, d.cache, ids, pos, i)
      invariant forall j | 0 <= j < |layers| :: layers[j].Valid()
      invariant forall j | 0 <= j < i :: layers[j].State() == Take(d.cache[j], DynToken(net, d, j))
      invariant forall j | i <= j < |layers| :: layers[j].State() == d.cache[j]
    {
      NextHidden(net, d.cache, ids, pos, i);
      var full := UpdateLayer(layers, i, net.project(h, i));
      h := net.attend(h, i, full);
      i := i + 1;
    }
    next := net.head(h);
  }

  lemma FirstHidden<H>(net: Net<H>, cache: seq<Prefilled>, ids: int, pos: nat)
    ensures DynHidden(net, cache, ids, pos, 0) == net.embed(ids, pos)
  {
  }

  lemma NextHidden<H>(net: Net<H>, cache: seq<Prefilled>, ids: int, pos: nat, i: nat)
    requires i < |cache|
    ensures var h := DynHidden(net, cache, ids, pos, i);
            DynHidden(net, cache, ids, pos, i + 1) == net.attend(h, i, cache[i].keys + [net.project(h, i)])
  {
  }

  /** Token `t` is the id after `t + 1` steps. */
  ghost predicate DynEmitted<H>(net: Net<H>, d: Dyn, tokens: seq<int>) {
    d.Ok() && forall t | 0 <= t < |tokens| :: tokens[t] == DynSteps(net, d, t + 1).ids
  }

  /** Greedy decoding on the dynamic layers. */
  method DynamicGreedyDecode<H(!new)>(net: Net<H>, layers: seq<Layer>, first: int, pos: nat, steps: nat, ghost d: Dyn)
    returns (tokens: seq<int>)
    requires d.Ok() && Holds(layers, d.cache) && first == d.ids && pos == d.pos
    modifies Objects(layers)
    ensures Holds(layers, DynSteps(net, d, steps).cache) && |tokens| == steps && DynEmitted(net, d, tokens)
  {
    hide Holds, DynNext, DynSteps, Objects, Dyn.Ok;
    tokens := [];
    DynUnfold(net, d, 0);
    while |tokens| < steps
      invariant |tokens| <= steps && Holds(layers, DynSteps(net, d, |tokens|).cache) && DynEmitted(net, d, tokens)
      invariant DynSteps(net, d, |tokens|).ids == if tokens == [] then first else tokens[|tokens| - 1]
      invariant DynSteps(net, d, |tokens|).pos == pos + |tokens|
    {
      DynUnfold(net, d, |tokens| + 1);
      NextPos(net, DynSteps(net, d, |tokens|));
      var ids := if tokens == [] then first else tokens[|tokens| - 1];
      var next := DynamicForward(net, layers, ids, pos + |tokens|, DynSteps(net, d, |tokens|));
      tokens := tokens + [next];
    }
  }

  lemma DynUnfold<H>(net: Net<H>, d: Dyn, n: nat)
    requires d.Ok()
    ensures DynSteps(net, d, n) == if n == 0 then d else DynNext(net, DynSteps(net, d, n - 1))
  {
  }

  lemma NextPos<H>(net: Net<H>, d: Dyn)
    requires d.Ok()
    ensures DynNext(net, d).pos == d.pos + 1
  {
  }

  // ---- the gate -----------------------------------------------------------

  /** The tokens of the three decodings that the gate compares. */
  datatype Gate = Gate(dynamic: seq<int>, eager: seq<int>, graphed: seq<int>)

  method ReadStates(layers: seq<Layer>) returns (states: seq<Prefilled>)
    ensures |states| == |layers| && forall i | 0 <= i < |layers| :: states[i] == layers[i].State()
  {
    states := [];
    while |states| < |layers|
      invariant |states| <= |layers| && forall i | 0 <= i < |states| :: states[i] == layers[i].State()
    {
      states := states + [layers[|states|].State()];
    }
  }

  /** Converts the cache twice; one copy decodes eagerly, the other by replay after warm-up and capture. */
  method StaticTokens<H(!new)>(net: Net<H>, cache: seq<Prefilled>, zero: KV, warmupIters: nat, first: int, steps: nat)
    returns (r: Option<(seq<int>, seq<int>)>)
    requires cache != [] && forall i | 0 <= i < |cache| :: cache[i].layer.Ok()
    ensures r.Some? <==> forall i | 0 <= i < |cache| :: cache[i].AtCapacity()
    ensures r.Some? ==> |r.value.0| == steps && r.value.0 == r.value.1
    ensures r.Some? ==> Emitted(AsModel(net), Machine(Rings(cache, zero), first, cache[0].cumulativeLength), r.value.0)
  {
    var refused, a := ToStaticCache(cache, zero);
    if refused {
      return None;
    }
    var _, b := ToStaticCache(cache, zero);
    hide Ready, Convert, Steps, Emitted, AsModel;
    assert At(a, Rings(cache, zero)) && At(b, Rings(cache, zero));
    hide At, Footprint;
    var eager, graphed, _ := TokenIdentity(AsModel(net), a, b, warmupIters, first, steps, Rings(cache, zero));
    r := Some((eager, graphed));
  }

  /**
   * The static-ring gate. Refused unless every layer is at capacity. Else replay always gives the
   * tokens of eager static decoding, and for a network that ignores the order of entries, on layers
   * that stay at capacity, both are the tokens of the dynamic layers, for any number of steps and of
   * warm-up iterations.
   */
  method RunGate<H(!new)>(net: Net<H>, layers: seq<Layer>, zero: KV, warmupIters: nat, first: int, steps: nat,
                          ghost cache: seq<Prefilled>)
    returns (r: Option<Gate>)
    requires layers != [] && Holds(layers, cache)
    modifies Objects(layers)
    ensures r.Some? <==> forall i | 0 <= i < |cache| :: cache[i].AtCapacity()
    ensures r.Some? ==> |r.value.dynamic| == |r.value.eager| == steps && r.value.eager == r.value.graphed
    ensures r.Some? ==>
      && cache != [] && DynEmitted(net, Dyn(cache, first, cache[0].cumulativeLength), r.value.dynamic)
      && Emitted(AsModel(net), Machine(Rings(cache, zero), first, cache[0].cumulativeLength), r.value.eager)
    ensures r.Some? && OrderBlind(net) && (steps <= 1 || forall i | 0 <= i < |cache| :: cache[i].layer.Drops()) ==>
      r.value.dynamic == r.value.eager
  {
    var states := ReadStates(layers);
    assert states == cache && Dyn(cache, first, states[0].cumulativeLength).Ok();
    hide OrderBlind, Holds, DynSteps, Emitted, DynEmitted, Dyn.AllDrop, SameTokens;
    var pos := states[0].cumulativeLength;
    var converted := StaticTokens(net, states, zero, warmupIters, first, steps);
    if converted.None? {
      return None;
    }
    var dynamic := DynamicGreedyDecode(net, layers, first, pos, steps, Dyn(cache, first, pos));
    DropMeans(Dyn(cache, first, pos));
    if OrderBlind(net) && (steps <= 1 || Dyn(cache, first, pos).AllDrop()) {
      TokensAgree(net, cache, zero, first, pos, steps);
      SameEmitted(net, cache, zero, first, pos, dynamic, converted.value.0);
    }
    r := Some(Gate(dynamic, converted.value.0, converted.value.1));
  }

  lemma DropMeans(d: Dyn)
    ensures d.AllDrop() <==> forall i | 0 <= i < |d.cache| :: d.cache[i].layer.Drops()
  {
  }

  lemma SameEmitted<H>(net: Net<H>, cache: seq<Prefilled>, zero: KV, first: int, pos: nat, a: seq<int>, b: seq<int>)
    requires forall i | 0 <= i < |cache| :: cache[i].layer.Ok() && cache[i].AtCapacity()
    requires SameTokens(net, cache, zero, first, pos, |a|) && |a| == |b|
    requires DynEmitted(net, Dyn(cache, first, pos), a)
    requires Emitted(AsModel(net), Machine(Rings(cache, zero), first, pos), b)
    ensures a == b
  {
    hide AsModel, Steps, DynSteps;
    forall t | 0 <= t < |a| ensures a[t] == b[t] {
      assert t + 1 <= |a|;
    }
  }
}
