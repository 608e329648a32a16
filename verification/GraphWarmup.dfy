/**
 * GraphedStep: warm-up iterations really run on the cache before the graph is captured; the slots
 * they visit are saved first and put back after. Decoding by replay then equals eager decoding.
 */
module GraphWarmup {
  import opened Lists
  import opened Tokens
  import opened StaticRing

  // ---- one layer ----------------------------------------------------------

  /** The slot the write pointer reaches after `n` updates. */
  function SlotAfter(start: nat, cap: nat, p: nat, n: nat): (q: nat)
    requires start <= p < cap
    ensures start <= q < cap
  {
    if n == 0 then p else Hop(start, cap, SlotAfter(start, cap, p, n - 1))
  }

  function Hop(start: nat, cap: nat, p: nat): (q: nat)
    requires start <= p < cap
    ensures start <= q < cap
  {
    (p - start + 1) % (cap - start) + start
  }

  predicate Visited(start: nat, cap: nat, p: nat, n: nat, slot: nat)
    requires start <= p < cap
  {
    exists k: nat :: k < n && SlotAfter(start, cap, p, k) == slot
  }

  /** Updates touch the visited slots only, and leave the pointer where the slot walk ends. */
  lemma {:induction false} UpdatesStayOnVisited(r: Ring<KV>, tokens: seq<KV>, slot: nat)
    requires r.Ok() && slot < |r.cells| && !Visited(r.start, |r.cells|, r.ptr, |tokens|, slot)
    ensures Decode(r, tokens).cells[slot] == r.cells[slot]
  {
    if tokens == [] {
    } else {
      var n := |tokens| - 1;
      assert SlotAfter(r.start, |r.cells|, r.ptr, n) != slot;
      PointerWalk(r, tokens[..n]);
      forall k: nat | k < n ensures SlotAfter(r.start, |r.cells|, r.ptr, k) != slot {
        assert k < |tokens|;
      }
      UpdatesStayOnVisited(r, tokens[..n], slot);
    }
  }

  lemma {:induction false} PointerWalk(r: Ring<KV>, tokens: seq<KV>)
    requires r.Ok()
    ensures Decode(r, tokens).ptr == SlotAfter(r.start, |r.cells|, r.ptr, |tokens|)
  {
    if tokens == [] {
    } else {
      PointerWalk(r, tokens[..|tokens| - 1]);
    }
  }

  /** The slots warm-up will visit, their contents, the pointer and the counter. */
  datatype Snapshot = Snapshot(idx: seq<nat>, kept: seq<KV>, ptr: nat, cumulativeLength: nat)

  ghost predicate Saves(s: Snapshot, r: Ring<KV>, n: nat) {
    && r.Ok() && |s.idx| == |s.kept| && s.ptr == r.ptr
    && (forall i | 0 <= i < |s.idx| :: s.idx[i] < |r.cells| && s.kept[i] == r.cells[s.idx[i]])
    && forall slot: nat | slot < |r.cells| && Visited(r.start, |r.cells|, r.ptr, n, slot) :: slot in s.idx
  }

  /** The slots the next `n` updates will write. */
  method SlotWalk(start: nat, cap: nat, ptr: nat, n: nat) returns (slots: seq<nat>)
    requires start <= ptr < cap
    ensures forall slot: nat :: slot in slots <==> Visited(start, cap, ptr, n, slot)
  {
    hide Visited, Hop;
    slots := [];
    var p := ptr;
    while |slots| < n
      invariant |slots| <= n && p == SlotAfter(start, cap, ptr, |slots|)
      invariant forall k: nat | k < |slots| :: slots[k] == SlotAfter(start, cap, ptr, k)
    {
      slots := slots + [p];
      p := Hop(start, cap, p);
    }
    WalkIsVisited(start, cap, ptr, slots);
  }

  lemma WalkIsVisited(start: nat, cap: nat, ptr: nat, slots: seq<nat>)
    requires start <= ptr < cap && forall k: nat | k < |slots| :: slots[k] == SlotAfter(start, cap, ptr, k)
    ensures forall slot: nat :: slot in slots <==> Visited(start, cap, ptr, |slots|, slot)
  {
    hide SlotAfter;
    forall slot: nat | Visited(start, cap, ptr, |slots|, slot) ensures slot in slots {
      var k: nat :| k < |slots| && SlotAfter(start, cap, ptr, k) == slot;
      assert slots[k] == slot;
    }
  }

  method TakeSnapshot(layer: StaticRingLayer, n: nat) returns (s: Snapshot)
    requires layer.Valid()
    ensures Saves(s, layer.State(), n) && s.cumulativeLength == layer.cumulativeLength
    ensures Increasing(s.idx)
    ensures forall slot | slot in s.idx :: Visited(layer.ringStart, layer.keys.Length, layer.ptr, n, slot)
  {
    hide Visited;
    var slots := SlotWalk(layer.ringStart, layer.keys.Length, layer.ptr, n);
    var idx, kept := SortedContents(layer.keys[..], slots);
    s := Snapshot(idx, kept, layer.ptr, layer.cumulativeLength);
  }

  /** The distinct listed slots in order, and what they hold. */
  method SortedContents(cells: seq<KV>, slots: seq<nat>) returns (idx: seq<nat>, kept: seq<KV>)
    ensures Increasing(idx) && |kept| == |idx| && Below(idx, |cells|)
    ensures forall i | 0 <= i < |idx| :: kept[i] == cells[idx[i]]
    ensures forall slot: nat :: slot in idx <==> slot < |cells| && slot in slots
  {
    idx, kept := [], [];
    var p := 0;
    while p < |cells|
      invariant 0 <= p <= |cells| && |kept| == |idx| && Increasing(idx) && Below(idx, p)
      invariant forall i | 0 <= i < |idx| :: kept[i] == cells[idx[i]]
      invariant forall slot: nat :: slot in idx <==> slot < p && slot in slots
    {
      if p in slots {
        idx, kept := idx + [p], kept + [cells[p]];
      }
      p := p + 1;
    }
  }

  /** Puts the saved slots, the pointer and the counter back. */
  method Restore(layer: StaticRingLayer, s: Snapshot, ghost r: Ring<KV>, ghost tokens: seq<KV>)
    requires Saves(s, r, |tokens|) && layer.Valid() && layer.State() == Decode(r, tokens)
    modifies layer`ptr, layer`cumulativeLength, layer.keys
    ensures layer.Valid() && layer.State() == r && layer.cumulativeLength == s.cumulativeLength
  {
    var i := 0;
    while i < |s.idx|
      invariant 0 <= i <= |s.idx|
      invariant forall j | 0 <= j < i :: layer.keys[s.idx[j]] == r.cells[s.idx[j]]
      invariant forall slot: nat | slot < layer.keys.Length && slot !in s.idx ::
        layer.keys[slot] == old(layer.keys[slot])
    {
      layer.keys[s.idx[i]] := s.kept[i];
      i := i + 1;
    }
    layer.ptr, layer.cumulativeLength := s.ptr, s.cumulativeLength;
    forall slot: nat | slot < layer.keys.Length ensures layer.keys[slot] == r.cells[slot] {
      if slot !in s.idx {
        UpdatesStayOnVisited(r, tokens, slot);
      }
    }
    assert layer.keys[..] == r.cells;
  }

  // ---- a cache of layers --------------------------------------------------

  ghost function Footprint(layers: seq<StaticRingLayer>): set<object> {
    (set l: object | l in layers) + set l | l in layers :: l.keys
  }

  ghost predicate Ready(layers: seq<StaticRingLayer>)
    reads Footprint(layers)
  {
    && (forall i, j | 0 <= i < j < |layers| :: layers[i] != layers[j] && layers[i].keys != layers[j].keys)
    && forall i | 0 <= i < |layers| :: layers[i].Valid()
  }

  /** The layers hold exactly these rings. */
  ghost predicate At(layers: seq<StaticRingLayer>, rings: seq<Ring<KV>>)
    reads Footprint(layers)
  {
    |rings| == |layers| && forall i | 0 <= i < |layers| :: layers[i].State() == rings[i]
  }

  /** A prefilled dynamic layer. */
  datatype Prefilled = Prefilled(layer: Dynamic, keys: seq<KV>, cumulativeLength: nat)
  {
    predicate AtCapacity() requires layer.Ok() { |keys| == layer.Stored() }
  }

  /**
   * `to_static_cache`: layer after layer is converted in place, into separate buffers, up to the first
   * one below capacity. There it is refused, and the layers before stay converted.
   */
  method ToStaticCache(cache: seq<Prefilled>, zero: KV) returns (refused: bool, layers: seq<StaticRingLayer>)
    requires forall i | 0 <= i < |cache| :: cache[i].layer.Ok()
    ensures refused <==> exists i :: 0 <= i < |cache| && !cache[i].AtCapacity()
    ensures |layers| <= |cache| && forall i | 0 <= i < |layers| :: cache[i].AtCapacity()
    ensures if refused then |layers| < |cache| && !cache[|layers|].AtCapacity() else |layers| == |cache|
    ensures fresh(Footprint(layers)) && Ready(layers)
    ensures forall i | 0 <= i < |layers| ::
      layers[i].State() == Convert(cache[i].layer, cache[i].keys, zero)
        && layers[i].cumulativeLength == cache[i].cumulativeLength
  {
    hide Convert;
    layers := [];
    while |layers| < |cache|
      invariant |layers| <= |cache| && Ready(layers)
      invariant forall i | 0 <= i < |layers| :: fresh(layers[i]) && fresh(layers[i].keys)
      invariant forall i | 0 <= i < |layers| :: cache[i].AtCapacity()
      invariant forall i | 0 <= i < |layers| ::
        layers[i].State() == Convert(cache[i].layer, cache[i].keys, zero)
          && layers[i].cumulativeLength == cache[i].cumulativeLength
    {
      var c := cache[|layers|];
      var next := ToStatic(c.layer, c.keys, c.cumulativeLength, zero);
      if next.None? {
        return true, layers;
      }
      assert next.value.keys !in Footprint(layers) && next.value !in layers;
      layers := layers + [next.value];
    }
    refused := false;
  }

  /** The network: the token every layer appends, and the next id, from buffers, pointers, id and position. */
  datatype Model = Model(kv: (seq<Ring<KV>>, int, nat, nat) -> KV, next: (seq<Ring<KV>>, int, nat) -> int)

  /** What a decode step works on. */
  datatype Machine = Machine(rings: seq<Ring<KV>>, ids: int, pos: nat)
  {
    ghost predicate Ok() { forall i | 0 <= i < |rings| :: rings[i].Ok() }

    ghost function NextRings(m: Model): (n: seq<Ring<KV>>)
      requires Ok()
      ensures |n| == |rings| && forall i | 0 <= i < |n| :: n[i] == rings[i].Write(m.kv(rings, ids, pos, i))
    {
      seq(|rings|, i requires 0 <= i < |rings| => rings[i].Write(m.kv(rings, ids, pos, i)))
    }

    /** Forward pass, argmax, token feedback and position bump. */
    ghost function Next(m: Model): (n: Machine)
      requires Ok()
      ensures n.Ok() && |n.rings| == |rings|
    {
      Machine(NextRings(m), m.next(rings, ids, pos), pos + 1)
    }
  }

  ghost function Steps(m: Model, s: Machine, n: nat): (r: Machine)
    requires s.Ok()
    ensures r.Ok() && |r.rings| == |s.rings|
  {
    if n == 0 then s else Steps(m, s, n - 1).Next(m)
  }

  /** The tokens layer `i` appended over `n` steps. */
  ghost function Appended(m: Model, s: Machine, n: nat, i: nat): (r: seq<KV>)
    requires s.Ok()
    ensures |r| == n
  {
    if n == 0 then []
    else
      var before := Steps(m, s, n - 1);
      Appended(m, s, n - 1, i) + [m.kv(before.rings, before.ids, before.pos, i)]
  }

  lemma {:induction false} StepsDecode(m: Model, s: Machine, n: nat, i: nat)
    requires s.Ok() && i < |s.rings|
    ensures Steps(m, s, n).rings[i] == Decode(s.rings[i], Appended(m, s, n, i))
  {
    if n == 0 {
    } else {
      StepsDecode(m, s, n - 1, i);
      var all := Appended(m, s, n, i);
      assert all[..n - 1] == Appended(m, s, n - 1, i);
    }
  }

  method ReadRings(layers: seq<StaticRingLayer>) returns (rings: seq<Ring<KV>>)
    ensures |rings| == |layers| && forall i | 0 <= i < |layers| :: rings[i] == layers[i].State()
  {
    rings := [];
    while |rings| < |layers|
      invariant |rings| <= |layers| && forall i | 0 <= i < |rings| :: rings[i] == layers[i].State()
    {
      var l := layers[|rings|];
      rings := rings + [Ring(l.keys[..], l.ringStart, l.ptr)];
    }
  }

  /** One forward pass: every layer appends its token; a replay leaves the host counters alone. */
  method Forward(m: Model, layers: seq<StaticRingLayer>, ids: int, pos: nat, replay: bool, ghost s: Machine)
    returns (next: int)
    requires Ready(layers) && At(layers, s.rings) && s.Ok() && ids == s.ids && pos == s.pos
    modifies Footprint(layers)
    ensures Ready(layers) && At(layers, s.Next(m).rings) && next == s.Next(m).ids
    ensures forall i | 0 <= i < |layers| ::
      layers[i].cumulativeLength == old(layers[i].cumulativeLength) + if replay then 0 else 1
  {
    var rings := ReadRings(layers);
    assert rings == s.rings;
    next := m.next(rings, ids, pos);
    var i := 0;
    while i < |layers|
      invariant 0 <= i <= |layers| && Ready(layers)
      invariant forall j | 0 <= j < i :: layers[j].State() == s.NextRings(m)[j]
      invariant forall j | i <= j < |layers| :: layers[j].State() == s.rings[j]
      invariant forall j | 0 <= j < |layers| ::
        layers[j].cumulativeLength == old(layers[j].cumulativeLength) + if !replay && j < i then 1 else 0
    {
      Feed(layers, i, m.kv(rings, ids, pos, i), replay);
      i := i + 1;
    }
  }

  /** One layer takes its token; all others stay. */
  method Feed(layers: seq<StaticRingLayer>, i: nat, x: KV, replay: bool)
    requires Ready(layers) && i < |layers|
    modifies Footprint(layers)
    ensures Ready(layers) && layers[i].State() == old(layers[i].State()).Write(x)
    ensures forall j | 0 <= j < |layers| && j != i :: layers[j].State() == old(layers[j].State())
    ensures forall j | 0 <= j < |layers| ::
      layers[j].cumulativeLength == old(layers[j].cumulativeLength) + if !replay && j == i then 1 else 0
  {
    if replay {
      layers[i].Replay(x);
    } else {
      var full := layers[i].Update(x);
    }
  }

  lemma StepsNext(m: Model, s: Machine, n: nat)
    requires s.Ok()
    ensures Steps(m, s, n + 1) == Steps(m, s, n).Next(m)
  {
  }

  lemma StepsZero(m: Model, s: Machine)
    requires s.Ok()
    ensures Steps(m, s, 0) == s
  {
  }

  lemma StepsPos(m: Model, s: Machine, n: nat)
    requires s.Ok()
    ensures Steps(m, s, n).pos == s.pos + n
  {
  }

  /** `steps` forward passes, each fed the id the previous one produced. */
  method Iterate(m: Model, layers: seq<StaticRingLayer>, first: int, pos: nat, steps: nat, replay: bool,
                 ghost start: Machine)
    returns (tokens: seq<int>)
    requires Ready(layers) && At(layers, start.rings) && start.Ok() && first == start.ids && pos == start.pos
    modifies Footprint(layers)
    ensures Ready(layers) && At(layers, Steps(m, start, steps).rings)
    ensures |tokens| == steps && Emitted(m, start, tokens)
    ensures forall i | 0 <= i < |layers| ::
      layers[i].cumulativeLength == old(layers[i].cumulativeLength) + if replay then 0 else steps
  {
    hide Ready, At, Footprint, Steps;
    tokens := [];
    StepsZero(m, start);
    while |tokens| < steps
      invariant |tokens| <= steps && Ready(layers) && At(layers, Steps(m, start, |tokens|).rings)
      invariant Emitted(m, start, tokens)
      invariant Steps(m, start, |tokens|).ids == if tokens == [] then first else tokens[|tokens| - 1]
      invariant forall i | 0 <= i < |layers| ::
        layers[i].cumulativeLength == old(layers[i].cumulativeLength) + if replay then 0 else |tokens|
    {
      StepsNext(m, start, |tokens|);
      StepsPos(m, start, |tokens|);
      var ids := if tokens == [] then first else tokens[|tokens| - 1];
      var next := Forward(m, layers, ids, pos + |tokens|, replay, Steps(m, start, |tokens|));
      tokens := tokens + [next];
    }
  }

  /** What construction does to the cache: snapshot, warm-up, restore, capture. */
  method WarmUpLayers(m: Model, layers: seq<StaticRingLayer>, ids: int, pos: nat, warmupIters: nat,
                      ghost start: Machine)
    returns (tokens: seq<int>)
    requires Ready(layers) && At(layers, start.rings) && start.Ok() && ids == start.ids && pos == start.pos
    modifies Footprint(layers)
    ensures Ready(layers) && At(layers, start.rings)
    ensures forall i | 0 <= i < |layers| :: layers[i].cumulativeLength == old(layers[i].cumulativeLength) + 1
  {
    hide StaticRing.Decode, Steps, Saves, Ready;
    var snaps := TakeSnapshots(layers, warmupIters);
    SavedForRings(layers, snaps, warmupIters, start.rings);
    tokens := Iterate(m, layers, ids, pos, warmupIters, false, start);
    forall i | 0 <= i < |layers|
      ensures layers[i].State() == Decode(start.rings[i], Appended(m, start, warmupIters, i))
    {
      StepsDecode(m, start, warmupIters, i);
    }
    RestoreAll(layers, snaps, start, m, warmupIters);
    CaptureAll(layers, start.rings);
  }

  class GraphedStep {
    const model: Model
    const layers: seq<StaticRingLayer>
    var ids: int
    var pos: nat

    /** The step works on these rings, this id and this position. */
    ghost predicate On(s: Machine)
      reads this, Footprint(layers)
    {
      Ready(layers) && At(layers, s.rings) && s.Ok() && ids == s.ids && pos == s.pos
    }

    /**
     * Snapshot, warm-up, restore, capture. For every number of warm-up iterations, wrapping or not,
     * buffers, pointers and position end exactly as they were. Only the host counter of each layer has
     * moved, by the one update that capture runs.
     */
    constructor (model: Model, layers: seq<StaticRingLayer>, warmupIters: nat, ghost rings: seq<Ring<KV>>)
      requires Ready(layers) && layers != [] && At(layers, rings)
      modifies Footprint(layers)
      ensures this.model == model && this.layers == layers
      ensures On(Machine(rings, ids, old(layers[0].cumulativeLength)))
      ensures forall i | 0 <= i < |layers| :: layers[i].cumulativeLength == old(layers[i].cumulativeLength) + 1
    {
      this.model, this.layers, this.ids, this.pos := model, layers, 0, layers[0].cumulativeLength;
      new;
      ReadyMeansOk(layers, rings);
      WarmUp(warmupIters, Machine(rings, ids, pos));
    }

    method WarmUp(warmupIters: nat, ghost start: Machine)
      requires On(start)
      modifies this, Footprint(layers)
      ensures On(start.(ids := ids))
      ensures forall i | 0 <= i < |layers| :: layers[i].cumulativeLength == old(layers[i].cumulativeLength) + 1
    {
      var pos0 := pos;
      var tokens := WarmUpLayers(model, layers, ids, pos, warmupIters, start);
      pos := pos + warmupIters;
      if tokens != [] {
        ids := tokens[|tokens| - 1];
      }
      pos := pos0;
    }

    /** Greedy decode by replaying the captured step. */
    method GraphedDecode(first: int, steps: nat, ghost rings: seq<Ring<KV>>) returns (tokens: seq<int>)
      requires On(Machine(rings, ids, pos))
      modifies this, Footprint(layers)
      ensures Emitted(model, Machine(rings, first, old(pos)), tokens) && |tokens| == steps
      ensures On(Steps(model, Machine(rings, first, old(pos)), steps))
    {
      hide Steps;
      ghost var start := Machine(rings, first, pos);
      tokens := Iterate(model, layers, first, pos, steps, true, start);
      StepsPos(model, start, steps);
      ids, pos := first, pos + steps;
      if tokens != [] {
        ids := tokens[|tokens| - 1];
      } else {
        StepsZero(model, start);
      }
    }
  }

  /** Token `t` is the id after `t + 1` steps. */
  ghost predicate Emitted(m: Model, start: Machine, tokens: seq<int>) {
    start.Ok() && forall t | 0 <= t < |tokens| :: tokens[t] == Steps(m, start, t + 1).ids
  }

  lemma ReadyMeansOk(layers: seq<StaticRingLayer>, rings: seq<Ring<KV>>)
    requires Ready(layers) && At(layers, rings)
    ensures forall i | 0 <= i < |rings| :: rings[i].Ok()
  {
    forall i | 0 <= i < |rings| ensures rings[i].Ok() {
      assert layers[i].Valid();
    }
  }

  lemma SavedForRings(layers: seq<StaticRingLayer>, snaps: seq<Snapshot>, n: nat, rings: seq<Ring<KV>>)
    requires At(layers, rings) && |snaps| == |layers|
    requires forall i | 0 <= i < |layers| :: Saves(snaps[i], layers[i].State(), n)
    ensures forall i | 0 <= i < |layers| :: Saves(snaps[i], rings[i], n)
  {
    forall i | 0 <= i < |layers| ensures Saves(snaps[i], rings[i], n) {
      assert layers[i].State() == rings[i];
    }
  }

  method TakeSnapshots(layers: seq<StaticRingLayer>, n: nat) returns (snaps: seq<Snapshot>)
    requires Ready(layers)
    ensures |snaps| == |layers|
    ensures forall i | 0 <= i < |layers| ::
      Saves(snaps[i], layers[i].State(), n) && snaps[i].cumulativeLength == layers[i].cumulativeLength
  {
    hide Saves;
    snaps := [];
    while |snaps| < |layers|
      invariant |snaps| <= |layers|
      invariant forall i | 0 <= i < |snaps| ::
        Saves(snaps[i], layers[i].State(), n) && snaps[i].cumulativeLength == layers[i].cumulativeLength
    {
      var s := TakeSnapshot(layers[|snaps|], n);
      snaps := snaps + [s];
    }
  }

  method RestoreAll(layers: seq<StaticRingLayer>, snaps: seq<Snapshot>, ghost start: Machine, ghost m: Model,
                    ghost n: nat)
    requires Ready(layers) && start.Ok() && |snaps| == |layers| == |start.rings|
    requires forall i | 0 <= i < |layers| :: Saves(snaps[i], start.rings[i], n)
    requires forall i | 0 <= i < |layers| :: layers[i].State() == Decode(start.rings[i], Appended(m, start, n, i))
    modifies Footprint(layers)
    ensures Ready(layers) && At(layers, start.rings)
    ensures forall i | 0 <= i < |layers| :: layers[i].cumulativeLength == snaps[i].cumulativeLength
  {
    hide Saves, Decode, Appended;
    var i := 0;
    while i < |layers|
      invariant 0 <= i <= |layers| && Ready(layers)
      invariant forall j | 0 <= j < i ::
        layers[j].State() == start.rings[j] && layers[j].cumulativeLength == snaps[j].cumulativeLength
      invariant forall j | i <= j < |layers| :: layers[j].State() == Decode(start.rings[j], Appended(m, start, n, j))
    {
      RestoreLayer(layers, i, snaps[i], start.rings[i], Appended(m, start, n, i));
      i := i + 1;
    }
  }

  /** One layer is restored; all others stay. */
  method RestoreLayer(layers: seq<StaticRingLayer>, i: nat, snap: Snapshot, ghost r: Ring<KV>, ghost tokens: seq<KV>)
    requires Ready(layers) && i < |layers| && Saves(snap, r, |tokens|) && layers[i].State() == Decode(r, tokens)
    modifies Footprint(layers)
    ensures Ready(layers) && layers[i].State() == r && layers[i].cumulativeLength == snap.cumulativeLength
    ensures forall j | 0 <= j < |layers| && j != i ::
      layers[j].State() == old(layers[j].State()) && layers[j].cumulativeLength == old(layers[j].cumulativeLength)
  {
    hide Saves, Decode;
    Restore(layers[i], snap, r, tokens);
  }

  /** Capture runs the host code of one step: tensor writes are recorded, not executed. */
  method CaptureAll(layers: seq<StaticRingLayer>, ghost rings: seq<Ring<KV>>)
    requires Ready(layers) && At(layers, rings)
    modifies Footprint(layers)
    ensures Ready(layers) && At(layers, rings)
    ensures forall i | 0 <= i < |layers| :: layers[i].cumulativeLength == old(layers[i].cumulativeLength) + 1
  {
    var i := 0;
    while i < |layers|
      invariant 0 <= i <= |layers| && Ready(layers) && At(layers, rings)
      invariant forall j | 0 <= j < |layers| ::
        layers[j].cumulativeLength == old(layers[j].cumulativeLength) + if j < i then 1 else 0
    {
      layers[i].Capture();
      i := i + 1;
    }
  }

  /** Eager decode over the same cache: the comparator of the token-identity gate. */
  method StaticGreedyDecode(model: Model, layers: seq<StaticRingLayer>, first: int, steps: nat,
                            ghost rings: seq<Ring<KV>>)
    returns (tokens: seq<int>)
    requires Ready(layers) && layers != [] && At(layers, rings) && forall i | 0 <= i < |rings| :: rings[i].Ok()
    modifies Footprint(layers)
    ensures Ready(layers) && |tokens| == steps
    ensures Emitted(model, Machine(rings, first, old(layers[0].cumulativeLength)), tokens)
    ensures At(layers, Steps(model, Machine(rings, first, old(layers[0].cumulativeLength)), steps).rings)
  {
    var pos := layers[0].cumulativeLength;
    tokens := Iterate(model, layers, first, pos, steps, false, Machine(rings, first, pos));
  }

  /**
   * The token-identity gate: on two equal caches, warm-up, capture and replay give exactly the
   * tokens and the buffers of eager decoding, for every network and every number of warm-up iterations.
   */
  method TokenIdentity(model: Model, eager: seq<StaticRingLayer>, graphed: seq<StaticRingLayer>,
                       warmupIters: nat, first: int, steps: nat, ghost rings: seq<Ring<KV>>)
    returns (a: seq<int>, b: seq<int>, ghost after: seq<Ring<KV>>)
    requires Ready(eager) && Ready(graphed) && eager != [] && graphed != []
    requires Footprint(eager) !! Footprint(graphed)
    requires At(eager, rings) && At(graphed, rings) && eager[0].cumulativeLength == graphed[0].cumulativeLength
    modifies Footprint(eager), Footprint(graphed)
    ensures a == b && |a| == steps && At(eager, after) && At(graphed, after)
    ensures Emitted(model, Machine(rings, first, old(eager[0].cumulativeLength)), a)
  {
    ReadyMeansOk(eager, rings);
    hide Steps, Emitted, Ready, At, Footprint;
    ghost var start := Machine(rings, first, eager[0].cumulativeLength);
    after := Steps(model, start, steps).rings;
    a := StaticGreedyDecode(model, eager, first, steps, rings);
    var step := new GraphedStep(model, graphed, warmupIters, rings);
    b := step.GraphedDecode(first, steps, rings);
    EmittedOnce(model, start, a, b);
  }

  lemma EmittedOnce(m: Model, start: Machine, a: seq<int>, b: seq<int>)
    requires Emitted(m, start, a) && Emitted(m, start, b) && |a| == |b|
    ensures a == b
  {
  }
}
