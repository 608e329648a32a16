/**
 * The native graph check: fixed buffers with one shared mask, a clone that leaves headroom, and the
 * warm-up and capture protocol. Replay must give the tokens of eager decoding.
 */
module NativeGraph {
  import opened Lists
  import opened Tokens
  import opened StaticRing

  datatype StepError = NotDecode | CrossesFold

  /** Which half of an update runs: all of it, the host code alone (capture), the tensor code alone (replay). */
  datatype Mode = Eager | Capture | Replay

  /** The host counters of a layer; a sliding layer has no pending tail and no routing chunk. */
  datatype Counters = Counters(cumulativeLength: nat, pendingTail: nat, routeChunk: Option<nat>)
  {
    /** The update would raise. */
    predicate Blocked() { routeChunk.Some? && pendingTail + 1 >= routeChunk.value }

    function After(mode: Mode, n: nat): Counters {
      if mode.Replay? then this
      else Counters(cumulativeLength + n, if routeChunk.Some? then pendingTail + n else pendingTail, routeChunk)
    }
  }

  // ---- the layers ---------------------------------------------------------

  class StaticSlidingDecodeLayer {
    const keys: array<KV>
    var ptr: nat
    var cumulativeLength: nat

    ghost predicate Valid()
      reads this, keys
    {
      State().Ok()
    }

    ghost function State(): Ring<KV>
      reads this, keys
    {
      Ring(keys[..], 0, ptr)
    }

    constructor (keys: array<KV>, ptr: nat, cumulativeLength: nat)
      requires ptr < keys.Length
      ensures Valid() && this.keys == keys && this.ptr == ptr && this.cumulativeLength == cumulativeLength
    {
      this.keys, this.ptr, this.cumulativeLength := keys, ptr, cumulativeLength;
    }

    method Update(chunk: seq<KV>, mode: Mode) returns (error: Option<StepError>)
      requires Valid()
      modifies this, keys
      ensures Valid()
      ensures error == if !mode.Replay? && |chunk| != 1 then Some(NotDecode) else None
      ensures error.Some? ==> State() == old(State()) && cumulativeLength == old(cumulativeLength)
      ensures error.None? && |chunk| == 1 ==>
        && State() == (if mode.Capture? then old(State()) else old(State()).Write(chunk[0]))
        && cumulativeLength == old(cumulativeLength) + if mode.Replay? then 0 else 1
    {
      if !mode.Replay? && |chunk| != 1 {
        return Some(NotDecode);
      }
      error := None;
      if !mode.Capture? && |chunk| == 1 {
        SlotInRing(State());
        keys[ptr] := chunk[0];
        ptr := (ptr + 1) % keys.Length;
      }
      if !mode.Replay? {
        cumulativeLength := cumulativeLength + 1;
      }
    }

    method Restore(snap: LayerSnapshot)
      requires snap.host.routeChunk.None? && snap.ring.Ok() && snap.ring.start == 0 && |snap.ring.cells| == keys.Length
      modifies this, keys
      ensures Valid() && State() == snap.ring && cumulativeLength == snap.host.cumulativeLength
    {
      forall i | 0 <= i < keys.Length {
        keys[i] := snap.ring.cells[i];
      }
      assert keys[..] == snap.ring.cells;
      ptr, cumulativeLength := snap.ring.ptr, snap.host.cumulativeLength;
    }
  }

  /** The full-attention mask is `true` where the source holds 0 and `false` where it holds the minimum. */
  class StaticRoutedSpanDecodeLayer {
    const keys: array<KV>
    const fullMask: array<bool>
    const routeChunk: nat
    var ptr: nat
    var cumulativeLength: nat
    var pendingTail: nat

    ghost predicate Valid()
      reads this, keys
    {
      State().Ok() && fullMask.Length == keys.Length
    }

    ghost function State(): Ring<KV>
      reads this, keys
    {
      Ring(keys[..], 0, ptr)
    }

    constructor (keys: array<KV>, ptr: nat, cumulativeLength: nat, fullMask: array<bool>, pendingTail: nat,
                 routeChunk: nat)
      requires ptr < keys.Length == fullMask.Length
      ensures Valid() && this.keys == keys && this.ptr == ptr && this.cumulativeLength == cumulativeLength
      ensures this.fullMask == fullMask && this.pendingTail == pendingTail && this.routeChunk == routeChunk
    {
      this.keys, this.ptr, this.cumulativeLength := keys, ptr, cumulativeLength;
      this.fullMask, this.pendingTail, this.routeChunk := fullMask, pendingTail, routeChunk;
    }

    method Update(chunk: seq<KV>, mode: Mode) returns (error: Option<StepError>)
      requires Valid()
      modifies this, keys, fullMask
      ensures Valid()
      ensures error == if mode.Replay? then None else if |chunk| != 1 then Some(NotDecode)
                       else if old(pendingTail) + 1 >= routeChunk then Some(CrossesFold) else None
      ensures error.Some? ==> State() == old(State()) && fullMask[..] == old(fullMask[..])
                              && cumulativeLength == old(cumulativeLength) && pendingTail == old(pendingTail)
      ensures error.None? && |chunk| == 1 ==>
        && State() == (if mode.Capture? then old(State()) else old(State()).Write(chunk[0]))
        && fullMask[..] == (if mode.Capture? then old(fullMask[..]) else old(fullMask[..])[old(ptr) := true])
        && cumulativeLength == old(cumulativeLength) + (if mode.Replay? then 0 else 1)
        && pendingTail == old(pendingTail) + (if mode.Replay? then 0 else 1)
    {
      if !mode.Replay? {
        if |chunk| != 1 {
          return Some(NotDecode);
        }
        if pendingTail + 1 >= routeChunk {
          return Some(CrossesFold);
        }
      }
      error := None;
      if !mode.Capture? && |chunk| == 1 {
        SlotInRing(State());
        keys[ptr] := chunk[0];
        fullMask[ptr] := true;
        ptr := (ptr + 1) % keys.Length;
      }
      if !mode.Replay? {
        cumulativeLength, pendingTail := cumulativeLength + 1, pendingTail + 1;
      }
    }

    method Restore(snap: LayerSnapshot)
      requires Valid() && snap.ring.Ok() && snap.ring.start == 0 && |snap.ring.cells| == keys.Length
      modifies this, keys
      ensures Valid() && State() == snap.ring
      ensures cumulativeLength == snap.host.cumulativeLength && pendingTail == snap.host.pendingTail
    {
      forall i | 0 <= i < keys.Length {
        keys[i] := snap.ring.cells[i];
      }
      assert keys[..] == snap.ring.cells;
      ptr, cumulativeLength, pendingTail := snap.ring.ptr, snap.host.cumulativeLength, snap.host.pendingTail;
    }
  }

  datatype LayerSnapshot = LayerSnapshot(ring: Ring<KV>, host: Counters)

  datatype Layer = Sliding(s: StaticSlidingDecodeLayer) | Routed(r: StaticRoutedSpanDecodeLayer)
  {
    function Keys(): array<KV> { if Sliding? then s.keys else r.keys }

    function Object(): object { if Sliding? then s else r }

    /** The heap objects of this layer alone. */
    ghost function Parts(): set<object> { {Object(), Keys()} }

    ghost predicate Valid(mask: array<bool>)
      reads Parts()
    {
      if Sliding? then s.Valid() else r.Valid() && r.fullMask == mask
    }

    ghost function State(): Ring<KV>
      reads Parts()
    {
      if Sliding? then s.State() else r.State()
    }

    function RouteChunk(): Option<nat> { if Sliding? then None else Some(r.routeChunk) }

    method Update(mask: array<bool>, chunk: seq<KV>, mode: Mode) returns (error: Option<StepError>)
      requires Valid(mask) && |chunk| == 1
      modifies Parts(), mask
      ensures Valid(mask) && (error.Some? <==> !mode.Replay? && old(Host()).Blocked())
      ensures error.None? ==>
        && State() == Written(old(State()), mode, chunk[0])
        && Host() == old(Host()).After(mode, 1)
        && mask[..] == Unmasked(old(mask[..]), Routed?, mode, old(State()).ptr)
    {
      match this
      case Sliding(s) => error := s.Update(chunk, mode);
      case Routed(r) => error := r.Update(chunk, mode);
    }

    /** The buffer and the pointer. */
    function Read(): (ring: Ring<KV>)
      reads Parts()
      ensures ring == State()
    {
      if Sliding? then Ring(s.keys[..], 0, s.ptr) else Ring(r.keys[..], 0, r.ptr)
    }

    method Snapshot() returns (snap: LayerSnapshot)
      ensures snap == LayerSnapshot(State(), Host())
    {
      snap := LayerSnapshot(Read(), Host());
    }

    method Restore(mask: array<bool>, snap: LayerSnapshot)
      requires Valid(mask) && snap.ring.Ok() && snap.ring.start == 0 && |snap.ring.cells| == Keys().Length
      requires snap.host.routeChunk == RouteChunk() && (Sliding? ==> snap.host.pendingTail == 0)
      modifies Parts()
      ensures Valid(mask) && State() == snap.ring && Host() == snap.host
    {
      match this
      case Sliding(s) => s.Restore(snap);
      case Routed(r) => r.Restore(snap);
    }

    function Host(): Counters
      reads Parts()
    {
      if Sliding? then Counters(s.cumulativeLength, 0, None)
      else Counters(r.cumulativeLength, r.pendingTail, Some(r.routeChunk))
    }
  }

  // ---- the device state as a value ----------------------------------------

  /** The network: the token every layer appends, and the next id, from buffers, pointers, mask, id and position. */
  datatype Network = Network(kv: (seq<Ring<KV>>, seq<bool>, int, nat, nat) -> KV,
                             next: (seq<Ring<KV>>, seq<bool>, int, nat) -> int)

  /** What a graph replay sees and changes; `routed` marks the layers that write the mask. */
  datatype Device = Device(rings: seq<Ring<KV>>, routed: seq<bool>, mask: seq<bool>, ids: int, pos: nat)
  {
    ghost predicate Ok() {
      && |routed| == |rings|
      && forall i | 0 <= i < |rings| ::
         rings[i].Ok() && rings[i].start == 0 && (routed[i] ==> |rings[i].cells| == |mask|)
    }

    /** The mask after the first `n` layers have written. */
    ghost function Opened(n: nat): (m: seq<bool>)
      requires Ok() && n <= |rings|
      ensures |m| == |mask|
    {
      if n == 0 then mask
      else if routed[n - 1] then Opened(n - 1)[rings[n - 1].ptr := true] else Opened(n - 1)
    }

    ghost function NextRings(net: Network): (r: seq<Ring<KV>>)
      requires Ok()
      ensures |r| == |rings|
      ensures forall i | 0 <= i < |r| :: r[i] == rings[i].Write(net.kv(rings, mask, ids, pos, i)) && r[i].Ok()
    {
      seq(|rings|, i requires 0 <= i < |rings| => rings[i].Write(net.kv(rings, mask, ids, pos, i)))
    }

    ghost function Next(net: Network): (d: Device)
      requires Ok()
      ensures d.Ok() && |d.rings| == |rings|
    {
      Device(NextRings(net), routed, Opened(|rings|), net.next(rings, mask, ids, pos), pos + 1)
    }
  }

  ghost function Steps(net: Network, d: Device, n: nat): (r: Device)
    requires d.Ok()
    ensures r.Ok() && |r.rings| == |d.rings|
  {
    if n == 0 then d else Steps(net, d, n - 1).Next(net)
  }

  lemma StepsUnfold(net: Network, d: Device, n: nat)
    requires d.Ok()
    ensures Steps(net, d, n) == if n == 0 then d else Steps(net, d, n - 1).Next(net)
  {
  }

  /** The tokens layer `i` appended over `n` steps. */
  ghost function Appended(net: Network, d: Device, n: nat, i: nat): (r: seq<KV>)
    requires d.Ok()
    ensures |r| == n
  {
    if n == 0 then []
    else
      var b := Steps(net, d, n - 1);
      Appended(net, d, n - 1, i) + [net.kv(b.rings, b.mask, b.ids, b.pos, i)]
  }

  /** A ring after its layer's update, and the mask after it. */
  ghost function Written(r: Ring<KV>, mode: Mode, x: KV): (w: Ring<KV>)
    requires r.Ok()
  {
    if mode.Capture? then r else r.Write(x)
  }

  ghost function Unmasked(mask: seq<bool>, routed: bool, mode: Mode, ptr: nat): seq<bool>
    requires routed ==> ptr < |mask|
  {
    if mode.Capture? || !routed then mask else mask[ptr := true]
  }

  ghost function MaskAfter(d: Device, mode: Mode, n: nat): (m: seq<bool>)
    requires d.Ok() && n <= |d.rings|
    ensures |m| == |d.mask|
  {
    if mode.Capture? then d.mask else d.Opened(n)
  }

  lemma MaskStart(d: Device, mode: Mode)
    requires d.Ok()
    ensures MaskAfter(d, mode, 0) == d.mask
  {
  }

  lemma MaskStep(d: Device, mode: Mode, n: nat)
    requires d.Ok() && n < |d.rings|
    ensures d.routed[n] ==> d.rings[n].ptr < |d.mask|
    ensures MaskAfter(d, mode, n + 1) == Unmasked(MaskAfter(d, mode, n), d.routed[n], mode, d.rings[n].ptr)
  {
  }

  /** The mask that exposes the first `p` slots. */
  function Shown(cap: nat, p: nat): seq<bool> { seq(cap, j => j < p) }

  /** All routed layers write the same slot, which is the first one the mask hides. */
  ghost predicate Aligned(d: Device, p: nat) {
    && d.Ok() && p < |d.mask| && d.mask == Shown(|d.mask|, p)
    && (forall i | 0 <= i < |d.rings| && d.routed[i] :: d.rings[i].ptr == p)
    && exists i :: 0 <= i < |d.rings| && d.routed[i]
  }

  lemma {:induction false} AllOpenTheSameSlot(d: Device, p: nat, n: nat)
    requires d.Ok() && n <= |d.rings| && p < |d.mask|
    requires forall i | 0 <= i < |d.rings| && d.routed[i] :: d.rings[i].ptr == p
    ensures d.Opened(n) == if exists i :: 0 <= i < n && d.routed[i] then d.mask[p := true] else d.mask
  {
    if n == 0 {
    } else {
      AllOpenTheSameSlot(d, p, n - 1);
      if d.routed[n - 1] {
        assert d.mask[p := true][p := true] == d.mask[p := true];
      }
    }
  }

  lemma AlignedNext(net: Network, d: Device, p: nat)
    requires Aligned(d, p) && p + 1 < |d.mask|
    ensures Aligned(d.Next(net), p + 1) && |d.Next(net).mask| == |d.mask|
  {
    AllOpenTheSameSlot(d, p, |d.rings|);
    var e := d.Next(net);
    assert e.mask == Shown(|d.mask|, p + 1);
    forall i | 0 <= i < |e.rings| && e.routed[i] ensures e.rings[i].ptr == p + 1 {
      SlotInRing(d.rings[i]);
    }
    var i :| 0 <= i < |d.rings| && d.routed[i];
    assert e.routed[i];
  }

  /** While there is headroom no pointer wraps, and the mask is exactly the prefix plus the tokens so far. */
  lemma {:induction false} StaysAligned(net: Network, d: Device, p: nat, n: nat)
    requires d.Ok() && Aligned(d, p) && p + n < |d.mask|
    ensures Aligned(Steps(net, d, n), p + n) && |Steps(net, d, n).mask| == |d.mask|
  {
    hide Aligned, Steps, Device.Opened, Device.NextRings;
    StepsUnfold(net, d, n);
    if n == 0 {
    } else {
      StaysAligned(net, d, p, n - 1);
      AlignedNext(net, Steps(net, d, n - 1), p + n - 1);
    }
  }

  lemma {:induction false} StepsDecode(net: Network, d: Device, n: nat, i: nat)
    requires d.Ok() && i < |d.rings|
    ensures Steps(net, d, n).rings[i] == Decode(d.rings[i], Appended(net, d, n, i))
  {
    if n == 0 {
    } else {
      StepsDecode(net, d, n - 1, i);
      var all := Appended(net, d, n, i);
      assert all[..n - 1] == Appended(net, d, n - 1, i);
    }
  }

  lemma {:induction false} DecodeAppends(r: Ring<KV>, tokens: seq<KV>)
    requires r.Ok() && r.start == 0 && r.ptr + |tokens| < |r.cells|
    ensures Decode(r, tokens).ptr == r.ptr + |tokens|
    ensures Decode(r, tokens).cells[..r.ptr + |tokens|] == r.cells[..r.ptr] + tokens
  {
    if tokens == [] {
      assert r.cells[..r.ptr] + tokens == r.cells[..r.ptr];
    } else {
      var n := |tokens| - 1;
      DecodeAppends(r, tokens[..n]);
      var before := Decode(r, tokens[..n]);
      SlotInRing(before);
      assert before.cells[r.ptr + n := tokens[n]][..r.ptr + n + 1] == before.cells[..r.ptr + n] + [tokens[n]];
    }
  }

  lemma {:induction false} ExposedPrefix(cells: seq<KV>, p: nat)
    requires p <= |cells|
    ensures Visible(cells, Shown(|cells|, p)) == cells[..p]
  {
    if cells == [] {
    } else {
      var n := |cells| - 1;
      assert Shown(|cells|, p)[..n] == Shown(n, p);
      if p <= n {
        ExposedPrefix(cells[..n], p);
        assert cells[..n][..p] == cells[..p];
      } else {
        assert Shown(n, p) == Shown(n, n);
        ExposedPrefix(cells[..n], n);
        assert cells[..n] + [cells[n]] == cells == cells[..p];
      }
    }
  }

  /** The mask exposes in every routed layer exactly its stored prefix and the tokens decoded so far. */
  lemma MaskShowsPrefixAndDecoded(net: Network, d: Device, p: nat, n: nat, i: nat)
    requires Aligned(d, p) && p + n < |d.mask| && i < |d.rings| && d.routed[i]
    ensures |Steps(net, d, n).rings[i].cells| == |Steps(net, d, n).mask|
    ensures Visible(Steps(net, d, n).rings[i].cells, Steps(net, d, n).mask)
      == d.rings[i].cells[..p] + Appended(net, d, n, i)
    ensures Steps(net, d, n).rings[i].ptr == p + n
  {
    hide Steps, Appended, Decode, Visible;
    StaysAligned(net, d, p, n);
    StepsDecode(net, d, n, i);
    StepsKeepLayout(net, d, n);
    DecodeAppends(d.rings[i], Appended(net, d, n, i));
    ExposedPrefix(Steps(net, d, n).rings[i].cells, p + n);
  }

  lemma {:induction false} StepsKeepLayout(net: Network, d: Device, n: nat)
    requires d.Ok()
    ensures Steps(net, d, n).routed == d.routed && Steps(net, d, n).pos == d.pos + n
  {
    if n == 0 {
    } else {
      hide Device.Ok;
      StepsKeepLayout(net, d, n - 1);
      NextKeepsLayout(net, Steps(net, d, n - 1));
      hide Device.Next;
    }
  }

  lemma NextKeepsLayout(net: Network, d: Device)
    requires d.Ok()
    ensures d.Next(net).routed == d.routed && d.Next(net).pos == d.pos + 1
  {
    hide Device.Ok, Device.NextRings, Device.Opened;
  }

  // ---- the cache ----------------------------------------------------------

  class StaticGemmaGraphCache {
    const layers: seq<Layer>
    const fullMask: array<bool>

    constructor (layers: seq<Layer>, fullMask: array<bool>)
      ensures this.layers == layers && this.fullMask == fullMask
    {
      this.layers, this.fullMask := layers, fullMask;
    }

    ghost function Footprint(): set<object> {
      {fullMask} + (set l | l in layers :: l.Object()) + set l | l in layers :: l.Keys()
    }

    ghost predicate Ready()
      reads Footprint()
    {
      && Apart(layers) && (forall i | 0 <= i < |layers| :: fullMask !in layers[i].Parts())
      && forall i | 0 <= i < |layers| :: layers[i].Valid(fullMask)
    }

    /** Buffers, pointers and mask are those of `d`. */
    ghost predicate Holds(d: Device)
      reads Footprint()
    {
      && |d.rings| == |d.routed| == |layers| && fullMask[..] == d.mask
      && forall i | 0 <= i < |layers| :: layers[i].State() == d.rings[i] && (layers[i].Routed? <==> d.routed[i])
    }

    /** The host counters of layer `i` are those of `hosts[i]`. */
    ghost predicate Counts(hosts: seq<Counters>)
      reads Footprint()
    {
      |hosts| == |layers| && forall i | 0 <= i < |layers| :: layers[i].Host() == hosts[i]
    }

    /** One layer takes its chunk; every other layer stays. */
    method UpdateLayer(i: nat, chunk: seq<KV>, mode: Mode) returns (error: Option<StepError>)
      requires Ready() && i < |layers| && |chunk| == 1
      modifies Footprint()
      ensures Ready() && (error.Some? <==> !mode.Replay? && old(layers[i].Host()).Blocked())
      ensures error.None? ==>
        && layers[i].State() == Written(old(layers[i].State()), mode, chunk[0])
        && layers[i].Host() == old(layers[i].Host()).After(mode, 1)
        && fullMask[..] == Unmasked(old(fullMask[..]), layers[i].Routed?, mode, old(layers[i].State()).ptr)
      ensures forall j | 0 <= j < |layers| && j != i ::
        layers[j].State() == old(layers[j].State()) && layers[j].Host() == old(layers[j].Host())
    {
      hide Counters.Blocked, Counters.After;
      assert layers[i].Valid(fullMask) && layers[i].Object() in Footprint() && layers[i].Keys() in Footprint();
      error := layers[i].Update(fullMask, chunk, mode);
    }

    /** Tokens seen, as layer 0 counts them. */
    method SeqLength(ghost hosts: seq<Counters>) returns (n: nat)
      requires Counts(hosts) && hosts != []
      ensures n == hosts[0].cumulativeLength
    {
      n := layers[0].Host().cumulativeLength;
    }

    method ReadRings() returns (rings: seq<Ring<KV>>)
      ensures |rings| == |layers| && forall i | 0 <= i < |layers| :: rings[i] == layers[i].State()
    {
      rings := [];
      while |rings| < |layers|
        invariant |rings| <= |layers| && forall i | 0 <= i < |rings| :: rings[i] == layers[i].State()
      {
        rings := rings + [layers[|rings|].Read()];
      }
    }

    /** Every layer takes its token, in order, until one raises. */
    method UpdateAll(feed: seq<KV>, mode: Mode, ghost d: Device, ghost hosts: seq<Counters>)
      returns (error: Option<StepError>)
      requires Ready() && Holds(d) && d.Ok() && Counts(hosts) && |feed| == |layers|
      modifies Footprint()
      ensures Ready() && (error.Some? <==> !mode.Replay? && exists h | h in hosts :: h.Blocked())
      ensures error.None? ==> forall j | 0 <= j < |layers| ::
        layers[j].State() == Written(d.rings[j], mode, feed[j]) && layers[j].Host() == hosts[j].After(mode, 1)
      ensures error.None? ==> fullMask[..] == MaskAfter(d, mode, |layers|)
    {
      hide Ready, Written, Unmasked, MaskAfter, Layer.State, Layer.Host, Counters.Blocked, Counters.After;
      var i := 0;
      MaskStart(d, mode);
      while i < |layers|
        invariant 0 <= i <= |layers| && Ready()
        invariant fullMask[..] == MaskAfter(d, mode, i)
        invariant forall j | 0 <= j < i :: layers[j].State() == Written(d.rings[j], mode, feed[j])
        invariant forall j | i <= j < |layers| :: layers[j].State() == d.rings[j]
        invariant forall j | 0 <= j < i ::
          layers[j].Host() == hosts[j].After(mode, 1) && (mode.Replay? || !hosts[j].Blocked())
        invariant forall j | i <= j < |layers| :: layers[j].Host() == hosts[j]
      {
        MaskStep(d, mode, i);
        error := UpdateLayer(i, [feed[i]], mode);
        if error.Some? {
          assert hosts[i] in hosts;
          return;
        }
        i := i + 1;
      }
      error := None;
    }

    /**
     * One forward pass. It raises exactly when the host code runs and some layer is about to cross its
     * routing chunk; else the tensors take one step unless only captured, and the counters advance
     * unless only replayed.
     */
    method Forward(net: Network, ids: int, pos: nat, mode: Mode, ghost d: Device, ghost hosts: seq<Counters>)
      returns (next: int, error: Option<StepError>)
      requires Ready() && Holds(d) && d.Ok() && ids == d.ids && pos == d.pos && Counts(hosts)
      modifies Footprint()
      ensures Ready() && (error.Some? <==> !mode.Replay? && exists h | h in hosts :: h.Blocked())
      ensures error.None? ==> Holds(if mode.Capture? then d else d.Next(net)) && next == d.Next(net).ids
      ensures error.None? ==> Counts(Advanced(hosts, mode, 1))
    {
      hide Ring.Write, Device.Opened, Counters.Blocked, Counters.After, Ready;
      var rings := ReadRings();
      assert rings == d.rings;
      var mask := fullMask[..];
      next := net.next(rings, mask, ids, pos);
      error := UpdateAll(seq(|layers|, i requires 0 <= i < |layers| => net.kv(rings, mask, ids, pos, i)), mode, d,
                         hosts);
    }

    /** `steps` forward passes, each fed the id the previous one produced; with room none of them raises. */
    method Iterate(net: Network, first: int, pos: nat, steps: nat, mode: Mode, ghost d: Device,
                   ghost hosts: seq<Counters>)
      returns (tokens: seq<int>)
      requires Ready() && Holds(d) && d.Ok() && first == d.ids && pos == d.pos && Counts(hosts)
      requires !mode.Capture? && (mode.Replay? || Room(hosts, steps))
      modifies Footprint()
      ensures Ready() && Holds(Steps(net, d, steps)) && Counts(Advanced(hosts, mode, steps))
      ensures |tokens| == steps && Emitted(net, d, tokens)
    {
      hide Ready, Holds, Counts, Footprint, Steps, Room, Counters.Blocked, Device.Next;
      tokens := [];
      StepsUnfold(net, d, 0);
      AdvancedZero(hosts, mode);
      while |tokens| < steps
        invariant |tokens| <= steps && Ready() && Holds(Steps(net, d, |tokens|)) && Emitted(net, d, tokens)
        invariant Counts(Advanced(hosts, mode, |tokens|))
        invariant Steps(net, d, |tokens|).ids == if tokens == [] then first else tokens[|tokens| - 1]
      {
        StepsUnfold(net, d, |tokens| + 1);
        StepsKeepLayout(net, d, |tokens|);
        if !mode.Replay? {
          RoomMeansUnblocked(hosts, mode, steps, |tokens|);
        }
        AdvancedNext(hosts, mode, |tokens|);
        var ids := if tokens == [] then first else tokens[|tokens| - 1];
        var next, error := Forward(net, ids, pos + |tokens|, mode, Steps(net, d, |tokens|),
                                   Advanced(hosts, mode, |tokens|));
        tokens := tokens + [next];
      }
    }

    method Snapshot() returns (snap: CacheSnapshot)
      requires Ready()
      ensures |snap.layers| == |layers| && snap.mask == fullMask[..]
      ensures forall i | 0 <= i < |layers| :: snap.layers[i] == LayerSnapshot(layers[i].State(), layers[i].Host())
    {
      var saved := [];
      while |saved| < |layers|
        invariant |saved| <= |layers|
        invariant forall i | 0 <= i < |saved| :: saved[i] == LayerSnapshot(layers[i].State(), layers[i].Host())
      {
        var one := layers[|saved|].Snapshot();
        saved := saved + [one];
      }
      snap := CacheSnapshot(saved, fullMask[..]);
    }

    /** Puts back a snapshot that this cache took, whatever ran since. */
    method Restore(snap: CacheSnapshot, ghost d: Device, ghost hosts: seq<Counters>)
      requires Ready() && d.Ok() && Fitting(d, hosts) && |snap.layers| == |layers| && snap.mask == d.mask
      requires forall i | 0 <= i < |layers| :: snap.layers[i] == LayerSnapshot(d.rings[i], hosts[i])
      modifies Footprint()
      ensures Ready() && Holds(d) && Counts(hosts)
    {
      var i := 0;
      while i < |layers|
        invariant 0 <= i <= |layers| && Ready()
        invariant forall j | 0 <= j < i :: layers[j].State() == d.rings[j] && layers[j].Host() == hosts[j]
      {
        RestoreLayer(i, snap.layers[i]);
        i := i + 1;
      }
      forall j | 0 <= j < fullMask.Length {
        fullMask[j] := snap.mask[j];
      }
      assert fullMask[..] == d.mask;
    }

    method RestoreLayer(i: nat, snap: LayerSnapshot)
      requires Ready() && i < |layers| && snap.ring.Ok() && snap.ring.start == 0
        && |snap.ring.cells| == layers[i].Keys().Length
      requires snap.host.routeChunk == layers[i].RouteChunk() && (layers[i].Sliding? ==> snap.host.pendingTail == 0)
      modifies Footprint()
      ensures Ready() && layers[i].State() == snap.ring && layers[i].Host() == snap.host
      ensures forall j | 0 <= j < |layers| && j != i ::
        layers[j].State() == old(layers[j].State()) && layers[j].Host() == old(layers[j].Host())
    {
      assert layers[i].Valid(fullMask) && layers[i].Object() in Footprint() && layers[i].Keys() in Footprint();
      layers[i].Restore(fullMask, snap);
    }

    /** States of this cache's own layout: the parts of it that no method changes. */
    ghost predicate Fitting(d: Device, hosts: seq<Counters>) {
      && |d.rings| == |d.routed| == |hosts| == |layers| && |d.mask| == fullMask.Length
      && forall i | 0 <= i < |layers| ::
           && (layers[i].Routed? <==> d.routed[i]) && |d.rings[i].cells| == layers[i].Keys().Length
           && hosts[i].routeChunk == layers[i].RouteChunk() && (layers[i].Sliding? ==> hosts[i].pendingTail == 0)
    }

    lemma FittingNow(d: Device, hosts: seq<Counters>)
      requires Ready() && Holds(d) && Counts(hosts)
      ensures Fitting(d, hosts)
    {
      forall i | 0 <= i < |layers| ensures |d.rings[i].cells| == layers[i].Keys().Length
        && hosts[i].routeChunk == layers[i].RouteChunk() && (layers[i].Sliding? ==> hosts[i].pendingTail == 0)
      {
        assert layers[i].State() == d.rings[i] && layers[i].Host() == hosts[i];
      }
    }
  }

  function Advanced(hosts: seq<Counters>, mode: Mode, n: nat): (r: seq<Counters>)
    ensures |r| == |hosts| && forall i | 0 <= i < |r| :: r[i] == hosts[i].After(mode, n)
  {
    seq(|hosts|, i requires 0 <= i < |hosts| => hosts[i].After(mode, n))
  }

  datatype CacheSnapshot = CacheSnapshot(layers: seq<LayerSnapshot>, mask: seq<bool>)

  /** Every routed layer can take `n` more host steps. */
  ghost predicate Room(hosts: seq<Counters>, n: nat) {
    forall h | h in hosts :: h.routeChunk.Some? ==> h.pendingTail + n < h.routeChunk.value
  }

  lemma RoomForLess(hosts: seq<Counters>, n: nat, k: nat)
    requires Room(hosts, n) && k <= n
    ensures Room(hosts, k)
  {
  }

  lemma RoomMeansUnblocked(hosts: seq<Counters>, mode: Mode, n: nat, k: nat)
    requires Room(hosts, n) && k < n
    ensures forall h | h in Advanced(hosts, mode, k) :: !h.Blocked()
  {
    forall h | h in Advanced(hosts, mode, k) ensures !h.Blocked() {
      var i :| 0 <= i < |hosts| && Advanced(hosts, mode, k)[i] == h;
      assert hosts[i] in hosts;
    }
  }

  lemma AdvancedZero(hosts: seq<Counters>, mode: Mode)
    ensures Advanced(hosts, mode, 0) == hosts
  {
  }

  lemma AdvancedReplay(hosts: seq<Counters>, n: nat)
    ensures Advanced(hosts, Replay, n) == hosts
  {
  }

  lemma AdvancedNext(hosts: seq<Counters>, mode: Mode, n: nat)
    ensures Advanced(Advanced(hosts, mode, n), mode, 1) == Advanced(hosts, mode, n + 1)
  {
  }

  /** Token `t` is the id after `t + 1` steps. */
  ghost predicate Emitted(net: Network, d: Device, tokens: seq<int>) {
    d.Ok() && forall t | 0 <= t < |tokens| :: tokens[t] == Steps(net, d, t + 1).ids
  }

  lemma EmittedOnce(net: Network, d: Device, a: seq<int>, b: seq<int>)
    requires Emitted(net, d, a) && Emitted(net, d, b) && |a| == |b|
    ensures a == b
  {
  }

  // ---- warm-up, capture, replay -------------------------------------------

  class GraphedGemmaStep {
    const net: Network
    const cache: StaticGemmaGraphCache
    const pos0: nat
    var ids: int
    var pos: nat

    /**
     * Snapshot, warm-up, restore, then snapshot, capture, restore. With room for the warm-up (and for
     * the one step of the capture) nothing raises, and buffers, pointers, mask and host counters all
     * end exactly as they were.
     */
    constructor (net: Network, cache: StaticGemmaGraphCache, warmupIters: nat, ghost d: Device,
                 ghost hosts: seq<Counters>)
      requires cache.Ready() && cache.Holds(d) && d.Ok() && cache.Counts(hosts) && hosts != []
      requires Room(hosts, Max(warmupIters, 1))
      modifies cache.Footprint()
      ensures this.net == net && this.cache == cache && pos0 == hosts[0].cumulativeLength
      ensures cache.Ready() && cache.Holds(d) && cache.Counts(hosts)
    {
      hide StaticGemmaGraphCache.Ready, StaticGemmaGraphCache.Holds, StaticGemmaGraphCache.Counts, Room, Device.Ok;
      var start := cache.SeqLength(hosts);
      this.net, this.cache, this.pos0, this.ids, this.pos := net, cache, start, 0, start;
      new;
      WarmUp(net, cache, warmupIters, pos0, d, hosts);
    }

    /** Greedy decode by replay, from the position the graph was captured at. */
    method Decode(first: int, steps: nat, ghost d: Device, ghost hosts: seq<Counters>) returns (tokens: seq<int>)
      requires cache.Ready() && cache.Holds(d) && d.Ok() && cache.Counts(hosts)
      modifies this, cache.Footprint()
      ensures cache.Ready() && |tokens| == steps
      ensures Emitted(net, d.(ids := first, pos := pos0), tokens)
      ensures cache.Holds(Steps(net, d.(ids := first, pos := pos0), steps)) && cache.Counts(hosts)
    {
      hide StaticGemmaGraphCache.Ready, Steps, Emitted;
      AdvancedReplay(hosts, steps);
      tokens := cache.Iterate(net, first, pos0, steps, Replay, d.(ids := first, pos := pos0), hosts);
      ids, pos := if tokens == [] then first else tokens[|tokens| - 1], pos0 + steps;
    }
  }

  method WarmUp(net: Network, cache: StaticGemmaGraphCache, warmupIters: nat, pos0: nat, ghost d: Device,
                ghost hosts: seq<Counters>)
    requires cache.Ready() && cache.Holds(d) && d.Ok() && cache.Counts(hosts) && Room(hosts, Max(warmupIters, 1))
    modifies cache.Footprint()
    ensures cache.Ready() && cache.Holds(d) && cache.Counts(hosts)
  {
    hide StaticGemmaGraphCache.Ready, StaticGemmaGraphCache.Holds, StaticGemmaGraphCache.Counts,
         StaticGemmaGraphCache.Footprint, Device.Ok;
    WarmUpPhase(net, cache, warmupIters, pos0, d, hosts);
    CapturePhase(net, cache, pos0, d, hosts);
  }

  /** The warm-up iterations really run on the cache; the snapshot takes them back. */
  method WarmUpPhase(net: Network, cache: StaticGemmaGraphCache, warmupIters: nat, pos0: nat, ghost d: Device,
                     ghost hosts: seq<Counters>)
    requires cache.Ready() && cache.Holds(d) && d.Ok() && cache.Counts(hosts) && Room(hosts, Max(warmupIters, 1))
    modifies cache.Footprint()
    ensures cache.Ready() && cache.Holds(d) && cache.Counts(hosts)
  {
    hide StaticGemmaGraphCache.Ready, StaticGemmaGraphCache.Fitting, Steps, Advanced, Counters.Blocked;
    cache.FittingNow(d, hosts);
    var snap := cache.Snapshot();
    var tokens := cache.Iterate(net, 0, pos0, warmupIters, Eager, d.(ids := 0, pos := pos0), hosts);
    cache.Restore(snap, d, hosts);
  }

  /** The capture runs host code only; the snapshot takes the counters back. */
  method CapturePhase(net: Network, cache: StaticGemmaGraphCache, pos0: nat, ghost d: Device,
                      ghost hosts: seq<Counters>)
    requires cache.Ready() && cache.Holds(d) && d.Ok() && cache.Counts(hosts) && Room(hosts, 1)
    modifies cache.Footprint()
    ensures cache.Ready() && cache.Holds(d) && cache.Counts(hosts)
  {
    hide StaticGemmaGraphCache.Ready, StaticGemmaGraphCache.Fitting, Steps, Advanced, Counters.Blocked;
    cache.FittingNow(d, hosts);
    var snap := cache.Snapshot();
    RoomMeansUnblocked(hosts, Eager, 1, 0);
    AdvancedZero(hosts, Eager);
    var next, error := cache.Forward(net, 0, pos0, Capture, d.(ids := 0, pos := pos0), hosts);
    assert error.None?;
    cache.Restore(snap, d, hosts);
  }

  method StaticEagerDecode(net: Network, cache: StaticGemmaGraphCache, first: int, steps: nat, ghost d: Device,
                           ghost hosts: seq<Counters>)
    returns (tokens: seq<int>)
    requires cache.Ready() && cache.Holds(d) && d.Ok() && cache.Counts(hosts) && hosts != [] && Room(hosts, steps)
    modifies cache.Footprint()
    ensures cache.Ready() && |tokens| == steps
    ensures Emitted(net, d.(ids := first, pos := hosts[0].cumulativeLength), tokens)
    ensures cache.Holds(Steps(net, d.(ids := first, pos := hosts[0].cumulativeLength), steps))
    ensures cache.Counts(Advanced(hosts, Eager, steps))
  {
    var pos := cache.SeqLength(hosts);
    tokens := cache.Iterate(net, first, pos, steps, Eager, d.(ids := first, pos := pos), hosts);
  }

  // ---- static_clone -------------------------------------------------------

  /** A layer of the native cache: what it stores, and what the clone reads of its counters. */
  datatype NativeLayer =
    | NativeSliding(keys: seq<KV>, cumulativeLength: nat, slidingWindow: nat)
    | NativeRouted(keys: seq<KV>, cumulativeLength: nat, pending: nat, routeChunk: nat)
    | Unsupported

  datatype CloneError = NoRoutedLayer | LayoutsDiffer | WouldCrossFold | SlidingNotFull | UnsupportedLayer

  datatype Layout = Layout(stored: nat, pending: nat, routeChunk: nat)

  function LayoutOf(l: NativeLayer): Layout
    requires l.NativeRouted?
  {
    Layout(|l.keys|, l.pending, l.routeChunk)
  }

  ghost predicate OneLayout(native: seq<NativeLayer>, layout: Layout) {
    && (exists i :: 0 <= i < |native| && native[i].NativeRouted?)
    && forall i | 0 <= i < |native| && native[i].NativeRouted? :: LayoutOf(native[i]) == layout
  }

  /** The clone's guard: the run, the warm-up and two more steps stay short of the routing chunk. */
  predicate Headroom(layout: Layout, out: nat, warmup: nat) {
    layout.pending + out + warmup + 2 < layout.routeChunk
  }

  function Capacity(layout: Layout, out: nat, warmup: nat): nat { layout.stored + out + warmup + 4 }

  predicate LayerFits(l: NativeLayer) {
    !l.Unsupported? && (l.NativeSliding? ==> |l.keys| + 1 == l.slidingWindow)
  }

  /** What the clone accepts. */
  ghost predicate Cloneable(native: seq<NativeLayer>, layout: Layout, out: nat, warmup: nat) {
    OneLayout(native, layout) && Headroom(layout, out, warmup) && forall i | 0 <= i < |native| :: LayerFits(native[i])
  }

  /** The stored keys, zeroes behind them, and the pointer on the first zero. */
  ghost function CloneRing(l: NativeLayer, cap: nat, zero: KV): (r: Ring<KV>)
    requires LayerFits(l) && (l.NativeRouted? ==> |l.keys| < cap)
    ensures r.Ok() && r.start == 0
  {
    var size := if l.NativeSliding? then l.slidingWindow else cap;
    Ring(l.keys + seq(size - |l.keys|, _ => zero), 0, |l.keys|)
  }

  function CloneCounters(l: NativeLayer): Counters
    requires LayerFits(l)
  {
    if l.NativeSliding? then Counters(l.cumulativeLength, 0, None)
      else Counters(l.cumulativeLength, l.pending, Some(l.routeChunk))
  }

  ghost function CloneDevice(native: seq<NativeLayer>, layout: Layout, out: nat, warmup: nat, zero: KV): (d: Device)
    requires Cloneable(native, layout, out, warmup)
    ensures |d.rings| == |d.routed| == |native| && d.mask == Shown(Capacity(layout, out, warmup), layout.stored)
    ensures forall i | 0 <= i < |native| ::
      && d.rings[i] == CloneRing(native[i], Capacity(layout, out, warmup), zero)
      && d.routed[i] == native[i].NativeRouted?
  {
    Device(seq(|native|, i requires 0 <= i < |native| => CloneRing(native[i], Capacity(layout, out, warmup), zero)),
           seq(|native|, i requires 0 <= i < |native| => native[i].NativeRouted?),
           Shown(Capacity(layout, out, warmup), layout.stored), 0, 0)
  }

  function CloneHosts(native: seq<NativeLayer>): (h: seq<Counters>)
    requires forall i | 0 <= i < |native| :: LayerFits(native[i])
    ensures |h| == |native| && forall i | 0 <= i < |native| :: h[i] == CloneCounters(native[i])
  {
    seq(|native|, i requires 0 <= i < |native| && LayerFits(native[i]) => CloneCounters(native[i]))
  }

  /** A clone starts aligned, with slots and routing room for the warm-up, the run and the capture. */
  lemma CloneHasHeadroom(native: seq<NativeLayer>, layout: Layout, out: nat, warmup: nat, zero: KV)
    requires Cloneable(native, layout, out, warmup)
    ensures Aligned(CloneDevice(native, layout, out, warmup, zero), layout.stored)
    ensures Room(CloneHosts(native), out + warmup + 2) && native != [] && LayerFits(native[0])
    ensures CloneHosts(native)[0].cumulativeLength == native[0].cumulativeLength
  {
    var i :| 0 <= i < |native| && native[i].NativeRouted?;
    var d := CloneDevice(native, layout, out, warmup, zero);
    assert d.routed[i];
    forall h | h in CloneHosts(native) && h.routeChunk.Some?
      ensures h.pendingTail + (out + warmup + 2) < h.routeChunk.value
    {
      var j :| 0 <= j < |native| && CloneHosts(native)[j] == h;
      assert LayoutOf(native[j]) == layout;
    }
  }

  /**
   * Along any run of at most `out + warmup + 3` steps on a clone no pointer wraps, and the mask exposes
   * in every routed layer exactly the keys of the native layer and the tokens decoded so far.
   */
  lemma CloneShows(net: Network, native: seq<NativeLayer>, layout: Layout, out: nat, warmup: nat, zero: KV, ids: int,
                   pos: nat, n: nat, i: nat)
    requires Cloneable(native, layout, out, warmup) && i < |native| && native[i].NativeRouted?
    requires n <= out + warmup + 3
    ensures var d := CloneDevice(native, layout, out, warmup, zero).(ids := ids, pos := pos);
            && d.Ok()
            && Steps(net, d, n).rings[i].ptr == layout.stored + n
            && |Steps(net, d, n).mask| == layout.stored + out + warmup + 4
            && |Steps(net, d, n).rings[i].cells| == |Steps(net, d, n).mask|
            && Visible(Steps(net, d, n).rings[i].cells, Steps(net, d, n).mask)
               == native[i].keys + Appended(net, d, n, i)
  {
    CloneHasHeadroom(native, layout, out, warmup, zero);
    hide Steps, Appended, Visible, CloneHosts;
    var d := CloneDevice(native, layout, out, warmup, zero).(ids := ids, pos := pos);
    assert d.routed[i] && LayoutOf(native[i]) == layout;
    assert d.rings[i].cells[..layout.stored] == native[i].keys;
    MaskShowsPrefixAndDecoded(net, d, layout.stored, n, i);
    StaysAligned(net, d, layout.stored, n);
  }

  /**
   * What an update of a native sliding layer keeps of all it holds: a slice that starts at 1 - window, and
   * so keeps everything when the window is a single token.
   */
  function NativeKept<T>(window: nat, full: seq<T>): seq<T>
    requires window >= 1
  {
    if window == 1 || |full| < window then full else full[|full| - (window - 1)..]
  }

  /** The keys of a native sliding layer after decoding these tokens one at a time. */
  function NativeKeys<T>(window: nat, keys: seq<T>, tokens: seq<T>): seq<T>
    requires window >= 1
  {
    if tokens == [] then keys
    else NativeKept(window, NativeKeys(window, keys, tokens[..|tokens| - 1]) + [tokens[|tokens| - 1]])
  }

  lemma {:induction false} NativeKeysAre<T>(window: nat, keys: seq<T>, tokens: seq<T>)
    requires |keys| + 1 == window
    ensures NativeKeys(window, keys, tokens) == if window == 1 then tokens else (keys + tokens)[|tokens|..]
  {
    if tokens == [] {
      assert (keys + tokens)[0..] == keys;
    } else {
      var n := |tokens| - 1;
      NativeKeysAre(window, keys, tokens[..n]);
      assert tokens == tokens[..n] + [tokens[n]];
      if window > 1 {
        LastSlides(keys, tokens[..n], tokens[n]);
      }
    }
  }

  lemma LastSlides<T>(keys: seq<T>, tokens: seq<T>, x: T)
    requires keys != []
    ensures (keys + tokens)[|tokens|..] + [x] == (keys + (tokens + [x]))[|tokens|..]
    ensures (keys + (tokens + [x]))[|tokens|..][1..] == (keys + (tokens + [x]))[|tokens| + 1..]
  {
    assert keys + (tokens + [x]) == keys + tokens + [x];
  }

  lemma Slides<T>(all: seq<T>, n: nat, x: T)
    requires n < |all + [x]|
    ensures all[n..] + [x] == (all + [x])[n..]
    ensures (all[n..] + [x])[..0] + (all[n..] + [x])[1..] == (all + [x])[n + 1..]
  {
  }

  lemma SlideWrite<T>(r: Ring<T>, all: seq<T>, n: nat, x: T)
    requires r.Ok() && r.start == 0 && n <= |all| && r.Kept() == all[n..]
    ensures r.Write(x).Kept() == (all + [x])[n + 1..] && r.Write(x).OldestFirst() == (all + [x])[n..]
  {
    hide Ring.OldestFirst, Ring.Kept, Ring.Write;
    WriteShifts(r, x);
    Slides(all, n, x);
  }

  lemma FullRing<T>(keys: seq<T>, spare: T)
    ensures var r := Ring(keys + [spare], 0, |keys|); r.Ok() && r.Kept() == (keys + [])[0..]
  {
    assert (keys + [spare])[|keys| + 1..] == [];
  }

  /** A ring filled with `keys` and one spare slot, after decoding: read from the pointer, the last tokens of all. */
  lemma {:induction false} RingSlides<T>(keys: seq<T>, spare: T, tokens: seq<T>)
    ensures var r := Decode(Ring(keys + [spare], 0, |keys|), tokens);
            && r.Ok() && r.Kept() == (keys + tokens)[|tokens|..]
            && (tokens != [] ==> r.OldestFirst() == (keys + tokens)[|tokens| - 1..])
  {
    hide Ring.OldestFirst, Ring.Kept, Ring.Write;
    if tokens == [] {
      FullRing(keys, spare);
    } else {
      var n := |tokens| - 1;
      RingSlides(keys, spare, tokens[..n]);
      assert keys + tokens == keys + tokens[..n] + [tokens[n]];
      SlideWrite(Decode(Ring(keys + [spare], 0, |keys|), tokens[..n]), keys + tokens[..n], n, tokens[n]);
    }
  }

  lemma CloneIsFull(l: NativeLayer, cap: nat, zero: KV)
    requires LayerFits(l) && l.NativeSliding?
    ensures CloneRing(l, cap, zero) == Ring(l.keys + [zero], 0, |l.keys|)
  {
    assert seq(1, _ => zero) == [zero];
  }

  /**
   * A sliding layer of a clone after any number of steps: read oldest first from the pointer, its buffer is
   * the keys of the native layer and the decoded tokens, as many of the last of them as the window holds.
   */
  lemma SlidingCloneShows(net: Network, native: seq<NativeLayer>, layout: Layout, out: nat, warmup: nat, zero: KV,
                          ids: int, pos: nat, n: nat, i: nat)
    requires Cloneable(native, layout, out, warmup) && i < |native| && native[i].NativeSliding?
    ensures var d := CloneDevice(native, layout, out, warmup, zero).(ids := ids, pos := pos);
            && d.Ok()
            && var r, all := Steps(net, d, n).rings[i], native[i].keys + Appended(net, d, n, i);
               && r.Ok() && |r.cells| == native[i].slidingWindow && |all| == native[i].slidingWindow - 1 + n
               && r.Kept() == all[n..] && (n > 0 ==> r.OldestFirst() == all[n - 1..])
  {
    hide Steps, Appended, Decode, Ring.Kept, Ring.OldestFirst, CloneRing, CloneHosts, CloneDevice, OneLayout;
    CloneHasHeadroom(native, layout, out, warmup, zero);
    var d := CloneDevice(native, layout, out, warmup, zero).(ids := ids, pos := pos);
    assert LayerFits(native[i]);
    CloneIsFull(native[i], Capacity(layout, out, warmup), zero);
    StepsDecode(net, d, n, i);
    RingSlides(native[i].keys, zero, Appended(net, d, n, i));
  }

  /**
   * In every step the sliding layer of a clone shows the tokens that the native layer returns, exactly when
   * the window has room for more than one token or this is the first step.
   */
  lemma SlidingCloneMatchesIff(net: Network, native: seq<NativeLayer>, layout: Layout, out: nat, warmup: nat,
                               zero: KV, ids: int, pos: nat, n: nat, i: nat)
    requires Cloneable(native, layout, out, warmup) && i < |native| && native[i].NativeSliding?
    ensures native[i].slidingWindow >= 1
    ensures var d := CloneDevice(native, layout, out, warmup, zero).(ids := ids, pos := pos);
            && d.Ok()
            && var r, all := Steps(net, d, n + 1).rings[i], Appended(net, d, n + 1, i);
               var returned := NativeKeys(native[i].slidingWindow, native[i].keys, all[..n]) + [all[n]];
               && (multiset(r.cells) == multiset(returned) <==> native[i].slidingWindow >= 2 || n == 0)
               && r.Ok() && (native[i].slidingWindow >= 2 || n == 0 ==> r.OldestFirst() == returned)
  {
    SlidingCloneShows(net, native, layout, out, warmup, zero, ids, pos, n + 1, i);
    var d := CloneDevice(native, layout, out, warmup, zero).(ids := ids, pos := pos);
    var r, all := Steps(net, d, n + 1).rings[i], Appended(net, d, n + 1, i);
    assert LayerFits(native[i]);
    hide CloneDevice, Steps, Appended, Cloneable;
    Matches(r, native[i].slidingWindow, native[i].keys, all, n);
  }

  lemma Matches(r: Ring<KV>, window: nat, keys: seq<KV>, all: seq<KV>, n: nat)
    requires r.Ok() && r.start == 0 && |r.cells| == window == |keys| + 1 && |all| == n + 1
    requires r.OldestFirst() == (keys + all)[n..]
    ensures var returned := NativeKeys(window, keys, all[..n]) + [all[n]];
            && (multiset(r.cells) == multiset(returned) <==> window >= 2 || n == 0)
            && (window >= 2 || n == 0 ==> r.OldestFirst() == returned)
  {
    NativeKeysAre(window, keys, all[..n]);
    OldestFirstIsRotation(r);
    hide NativeKeys, Ring.OldestFirst;
    var returned := NativeKeys(window, keys, all[..n]) + [all[n]];
    assert all == all[..n] + [all[n]];
    if window >= 2 {
      LastSlides(keys, all[..n], all[n]);
    } else if n == 0 {
      assert (keys + all)[0..] == all == returned;
    } else {
      assert |multiset(returned)| == n + 1 && |multiset(r.cells)| == 1;
    }
  }

  /** One layer of the clone, on fresh buffers. */
  method CloneLayer(l: NativeLayer, cap: nat, mask: array<bool>, zero: KV) returns (r: Layer)
    requires LayerFits(l) && (l.NativeRouted? ==> |l.keys| < cap) && mask.Length == cap
    ensures fresh(r.Parts()) && r.Valid(mask)
    ensures r.State() == CloneRing(l, cap, zero) && r.Host() == CloneCounters(l) && (r.Routed? <==> l.NativeRouted?)
  {
    var size := if l.NativeSliding? then l.slidingWindow else cap;
    var keys := new KV[size](_ => zero);
    forall i | 0 <= i < |l.keys| {
      keys[i] := l.keys[i];
    }
    assert keys[..] == l.keys + seq(size - |l.keys|, _ => zero);
    if l.NativeSliding? {
      var s := new StaticSlidingDecodeLayer(keys, |l.keys|, l.cumulativeLength);
      r := Layer.Sliding(s);
    } else {
      var t := new StaticRoutedSpanDecodeLayer(keys, |l.keys|, l.cumulativeLength, mask, l.pending, l.routeChunk);
      r := Routed(t);
    }
  }

  /** The one layout of all routed layers, or why there is none. */
  method CommonLayout(native: seq<NativeLayer>) returns (r: Result<Layout, CloneError>)
    ensures r.Ok? ==> OneLayout(native, r.value)
    ensures r.Err? ==> forall layout :: !OneLayout(native, layout)
    ensures r.Err? ==> r.error == if forall i | 0 <= i < |native| :: !native[i].NativeRouted? then NoRoutedLayer
                                  else LayoutsDiffer
  {
    var found: Option<Layout> := None;
    var i := 0;
    while i < |native|
      invariant 0 <= i <= |native|
      invariant found.None? ==> forall j | 0 <= j < i :: !native[j].NativeRouted?
      invariant found.Some? ==> exists j :: 0 <= j < i && native[j].NativeRouted?
      invariant found.Some? ==> forall j | 0 <= j < i && native[j].NativeRouted? :: LayoutOf(native[j]) == found.value
    {
      if native[i].NativeRouted? {
        if found.Some? && found.value != LayoutOf(native[i]) {
          return Err(LayoutsDiffer);
        }
        found := Some(LayoutOf(native[i]));
      }
      i := i + 1;
    }
    r := if found.None? then Err(NoRoutedLayer) else Ok(found.value);
  }

  ghost predicate Cloned(layer: Layer, l: NativeLayer, cap: nat, mask: array<bool>, zero: KV)
    requires LayerFits(l) && (l.NativeRouted? ==> |l.keys| < cap)
    reads layer.Parts()
  {
    layer.Valid(mask) && layer.State() == CloneRing(l, cap, zero) && layer.Host() == CloneCounters(l)
    && (layer.Routed? <==> l.NativeRouted?)
  }

  /** Clones the layers one by one, on one shared mask. */
  method CloneLayers(native: seq<NativeLayer>, cap: nat, mask: array<bool>, zero: KV)
    returns (r: Result<seq<Layer>, CloneError>)
    requires mask.Length == cap && forall i | 0 <= i < |native| && native[i].NativeRouted? :: |native[i].keys| < cap
    ensures r.Ok? <==> forall i | 0 <= i < |native| :: LayerFits(native[i])
    ensures r.Err? ==> exists i | 0 <= i < |native| ::
      && !LayerFits(native[i]) && (forall j | 0 <= j < i :: LayerFits(native[j]))
      && r.error == if native[i].Unsupported? then UnsupportedLayer else SlidingNotFull
    ensures r.Ok? ==> |r.value| == |native| && Apart(r.value)
    ensures r.Ok? ==> forall i | 0 <= i < |native| :: Cloned(r.value[i], native[i], cap, mask, zero)
    ensures r.Ok? ==> forall i | 0 <= i < |native| :: fresh(r.value[i].Parts())
  {
    hide CloneRing;
    var layers: seq<Layer> := [];
    while |layers| < |native|
      invariant |layers| <= |native| && Apart(layers)
      invariant forall i | 0 <= i < |layers| :: LayerFits(native[i])
      invariant forall i | 0 <= i < |layers| :: Cloned(layers[i], native[i], cap, mask, zero)
      invariant forall i | 0 <= i < |layers| :: fresh(layers[i].Parts())
    {
      var l := native[|layers|];
      if l.Unsupported? {
        return Err(UnsupportedLayer);
      }
      if l.NativeSliding? && |l.keys| + 1 != l.slidingWindow {
        return Err(SlidingNotFull);
      }
      var layer := CloneLayer(l, cap, mask, zero);
      layers := layers + [layer];
    }
    r := Ok(layers);
  }

  /** The cloned layers on their mask make up the cache the clone is meant to be. */
  lemma CloneHolds(cache: StaticGemmaGraphCache, native: seq<NativeLayer>, layout: Layout, out: nat, warmup: nat,
                   zero: KV)
    requires Cloneable(native, layout, out, warmup) && |cache.layers| == |native| && Apart(cache.layers)
    requires var cap := Capacity(layout, out, warmup);
             && cache.fullMask[..] == Shown(cap, layout.stored)
             && (forall i | 0 <= i < |native| && native[i].NativeRouted? :: |native[i].keys| < cap)
             && forall i | 0 <= i < |native| :: Cloned(cache.layers[i], native[i], cap, cache.fullMask, zero)
    requires forall i | 0 <= i < |native| :: cache.fullMask !in cache.layers[i].Parts()
    ensures cache.Ready() && cache.Holds(CloneDevice(native, layout, out, warmup, zero))
      && cache.Counts(CloneHosts(native))
  {
    hide CloneRing, OneLayout, Capacity, CloneCounters, CloneHosts, CloneDevice, Shown, Apart;
  }

  /** The layers of one layout, cloned onto a fresh mask; the first layer that does not fit is the error. */
  method CloneOnto(native: seq<NativeLayer>, layout: Layout, out: nat, warmup: nat, zero: KV)
    returns (r: Result<StaticGemmaGraphCache, CloneError>)
    requires OneLayout(native, layout) && Headroom(layout, out, warmup)
    ensures r.Ok? <==> Cloneable(native, layout, out, warmup)
    ensures r.Err? ==> r.error.SlidingNotFull? || r.error.UnsupportedLayer?
    ensures r.Ok? ==> fresh(r.value.Footprint()) && r.value.Ready()
    ensures r.Ok? ==>
      r.value.Holds(CloneDevice(native, layout, out, warmup, zero)) && r.value.Counts(CloneHosts(native))
  {
    hide CloneRing, OneLayout, LayerFits, CloneHosts, CloneDevice, CloneCounters, StaticGemmaGraphCache.Ready,
         StaticGemmaGraphCache.Holds, StaticGemmaGraphCache.Counts;
    var cap := Capacity(layout, out, warmup);
    var mask := new bool[cap](i => i < layout.stored);
    assert mask[..] == Shown(cap, layout.stored);
    RoutedFit(native, layout, cap);
    var layers := CloneLayers(native, cap, mask, zero);
    if layers.Err? {
      return Err(layers.error);
    }
    var cache := new StaticGemmaGraphCache(layers.value, mask);
    assert forall o | o in cache.Footprint() :: fresh(o);
    CloneHolds(cache, native, layout, out, warmup, zero);
    r := Ok(cache);
  }

  /** The clone is refused exactly when no layout makes the native cache cloneable. */
  method StaticClone(native: seq<NativeLayer>, out: nat, warmup: nat, zero: KV)
    returns (r: Result<StaticGemmaGraphCache, CloneError>, ghost layout: Layout)
    ensures r.Ok? ==> Cloneable(native, layout, out, warmup)
    ensures r.Err? ==> forall l :: !Cloneable(native, l, out, warmup)
    ensures r == Err(NoRoutedLayer) <==> forall i | 0 <= i < |native| :: !native[i].NativeRouted?
    ensures r == Err(LayoutsDiffer) <==>
      (exists i | 0 <= i < |native| :: native[i].NativeRouted?) && forall l :: !OneLayout(native, l)
    ensures r == Err(WouldCrossFold) <==>
      OneLayout(native, layout) && layout.pending + out + warmup + 2 >= layout.routeChunk
    ensures r.Ok? ==> fresh(r.value.Footprint()) && r.value.Ready()
    ensures r.Ok? ==>
      r.value.Holds(CloneDevice(native, layout, out, warmup, zero)) && r.value.Counts(CloneHosts(native))
  {
    hide OneLayout, CloneHosts, CloneDevice, StaticGemmaGraphCache.Ready, StaticGemmaGraphCache.Holds,
         StaticGemmaGraphCache.Counts;
    layout := Layout(0, 0, 0);
    var common := CommonLayout(native);
    if common.Err? {
      return Err(common.error), layout;
    }
    layout := common.value;
    LayoutIsUnique(native, layout);
    if !Headroom(common.value, out, warmup) {
      return Err(WouldCrossFold), layout;
    }
    r := CloneOnto(native, common.value, out, warmup, zero);
  }

  lemma LayoutIsUnique(native: seq<NativeLayer>, layout: Layout)
    requires OneLayout(native, layout)
    ensures forall l | OneLayout(native, l) :: l == layout
  {
  }

  lemma RoutedFit(native: seq<NativeLayer>, layout: Layout, cap: nat)
    requires OneLayout(native, layout) && layout.stored < cap
    ensures forall i | 0 <= i < |native| && native[i].NativeRouted? :: |native[i].keys| < cap
  {
    forall i | 0 <= i < |native| && native[i].NativeRouted? ensures |native[i].keys| < cap {
      assert LayoutOf(native[i]) == layout;
    }
  }

  ghost predicate Apart(layers: seq<Layer>) {
    forall i, j | 0 <= i < j < |layers| :: layers[i].Parts() !! layers[j].Parts()
  }

  /**
   * The parity check: whenever the native cache can be cloned, eager decoding on one clone and warm-up,
   * capture and replay on another never raise and emit the same tokens: those of the network on the clone,
   * from the position the native cache has reached.
   */
  method Run(net: Network, native: seq<NativeLayer>, out: nat, warmup: nat, first: int, zero: KV)
    returns (r: Result<(seq<int>, seq<int>), CloneError>, ghost layout: Layout)
    ensures r.Ok? ==> Cloneable(native, layout, out, warmup)
    ensures r.Err? ==> forall l :: !Cloneable(native, l, out, warmup)
    ensures r.Ok? ==> r.value.0 == r.value.1 && |r.value.0| == out && native != [] && LayerFits(native[0])
    ensures r.Ok? ==>
      var d := CloneDevice(native, layout, out, warmup, zero);
      Emitted(net, d.(ids := first, pos := native[0].cumulativeLength), r.value.0)
  {
    hide StaticGemmaGraphCache.Ready, StaticGemmaGraphCache.Holds, StaticGemmaGraphCache.Counts, OneLayout, Emitted,
         CloneDevice, CloneHosts, CloneCounters, LayerFits;
    var eager, graph;
    eager, layout := StaticClone(native, out, warmup, zero);
    if eager.Err? {
      return Err(eager.error), layout;
    }
    ghost var again;
    graph, again := StaticClone(native, out, warmup, zero);
    assert graph.Ok?;
    LayoutIsUnique(native, layout);
    CloneHasHeadroom(native, layout, out, warmup, zero);
    var a, b := Compare(net, eager.value, graph.value, out, warmup, first,
                        CloneDevice(native, layout, out, warmup, zero), CloneHosts(native), out + warmup + 2);
    r := Ok((a, b));
  }

  method Compare(net: Network, eager: StaticGemmaGraphCache, graph: StaticGemmaGraphCache, out: nat, warmup: nat,
                 first: int, ghost d: Device, ghost hosts: seq<Counters>, ghost room: nat)
    returns (a: seq<int>, b: seq<int>)
    requires eager.Footprint() !! graph.Footprint() && d.Ok() && hosts != [] && Room(hosts, room)
    requires out <= room && Max(warmup, 1) <= room
    requires eager.Ready() && eager.Holds(d) && eager.Counts(hosts)
    requires graph.Ready() && graph.Holds(d) && graph.Counts(hosts)
    modifies eager.Footprint(), graph.Footprint()
    ensures a == b && |a| == out && Emitted(net, d.(ids := first, pos := hosts[0].cumulativeLength), a)
  {
    hide StaticGemmaGraphCache.Ready, StaticGemmaGraphCache.Holds, StaticGemmaGraphCache.Counts;
    hide Steps, Emitted, Room, Device.Ok, Advanced;
    RoomForLess(hosts, room, out);
    RoomForLess(hosts, room, Max(warmup, 1));
    a := StaticEagerDecode(net, eager, first, out, d, hosts);
    b := GraphDecode(net, graph, first, out, warmup, d, hosts);
    EmittedOnce(net, d.(ids := first, pos := hosts[0].cumulativeLength), a, b);
  }

  /** Construction of the graphed step and one decode with it. */
  method GraphDecode(net: Network, cache: StaticGemmaGraphCache, first: int, out: nat, warmup: nat,
                     ghost d: Device, ghost hosts: seq<Counters>)
    returns (tokens: seq<int>)
    requires cache.Ready() && cache.Holds(d) && d.Ok() && cache.Counts(hosts) && hosts != []
      && Room(hosts, Max(warmup, 1))
    modifies cache.Footprint()
    ensures cache.Ready() && |tokens| == out
    ensures Emitted(net, d.(ids := first, pos := hosts[0].cumulativeLength), tokens)
    ensures cache.Holds(Steps(net, d.(ids := first, pos := hosts[0].cumulativeLength), out)) && cache.Counts(hosts)
  {
    hide StaticGemmaGraphCache.Ready, StaticGemmaGraphCache.Holds, StaticGemmaGraphCache.Counts;
    hide Steps, Emitted, Room, Device.Ok, Advanced;
    var step := new GraphedGemmaStep(net, cache, warmup, d, hosts);
    tokens := step.Decode(first, out, d, hosts);
  }
}
