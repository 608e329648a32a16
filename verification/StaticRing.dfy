/**
 * StaticRingLayer: fixed buffers written in place through a wrapping pointer. Decoding on them
 * shows the same tokens as the dynamic layer they were converted from.
 */
module StaticRing {
  import opened Lists
  import opened Tokens
  import opened SinkRing

  /** A buffer whose slots from `start` on form a ring; `ptr` is the slot to be written next. */
  datatype Ring<T> = Ring(cells: seq<T>, start: nat, ptr: nat)
  {
    predicate Ok() { start <= ptr < |cells| }

    /** The slot after `ptr`, wrapping from the last slot to the first slot of the ring. */
    function NextSlot(): nat
      requires Ok()
    {
      (ptr - start + 1) % (|cells| - start) + start
    }

    function Write(x: T): (r: Ring<T>)
      requires Ok()
      ensures r.Ok() && |r.cells| == |cells| && r.start == start
    {
      SlotInRing(this);
      Ring(cells[ptr := x], start, NextSlot())
    }

    /** The sink, then the ring read from `ptr` round to `ptr`: oldest first. */
    ghost function OldestFirst(): (r: seq<T>)
      requires Ok()
    {
      cells[..start] + cells[ptr..] + cells[start..ptr]
    }

    /** The same without the slot about to be overwritten. */
    ghost function Kept(): (r: seq<T>)
      requires Ok()
    {
      cells[..start] + cells[ptr + 1..] + cells[start..ptr]
    }
  }

  lemma SlotInRing<T>(r: Ring<T>)
    requires r.Ok()
    ensures r.NextSlot() == if r.ptr + 1 < |r.cells| then r.ptr + 1 else r.start
  {
    var size, d := |r.cells| - r.start, r.ptr - r.start + 1;
    if d < size {
      assert d % size == d;
    } else {
      assert d == size && d % size == 0;
    }
  }

  /** A write puts the new token behind everything kept, and drops the oldest token of the ring. */
  lemma WriteShifts<T>(r: Ring<T>, x: T)
    requires r.Ok()
    ensures r.Write(x).OldestFirst() == r.Kept() + [x]
    ensures r.Write(x).Kept() == (r.Kept() + [x])[..r.start] + (r.Kept() + [x])[r.start + 1..]
  {
    SlotInRing(r);
    var w := r.Write(x);
    if r.ptr + 1 < |r.cells| {
      assert w.cells[r.ptr + 1..] == r.cells[r.ptr + 1..];
      assert w.cells[r.start..r.ptr + 1] == r.cells[r.start..r.ptr] + [x];
    } else {
      assert w.cells[r.start..] == r.cells[r.start..r.ptr] + [x];
    }
    assert w.cells[..r.start] == r.cells[..r.start];
    DropOldest(w);
  }

  lemma DropOldest<T>(r: Ring<T>)
    requires r.Ok()
    ensures r.Kept() == r.OldestFirst()[..r.start] + r.OldestFirst()[r.start + 1..]
  {
    assert r.OldestFirst() == r.cells[..r.start] + [r.cells[r.ptr]] + r.cells[r.ptr + 1..] + r.cells[r.start..r.ptr];
  }

  /** The order of the slots is the only difference between the buffer and its reading. */
  lemma OldestFirstIsRotation<T>(r: Ring<T>)
    requires r.Ok()
    ensures multiset(r.OldestFirst()) == multiset(r.cells) && |r.OldestFirst()| == |r.cells|
  {
    assert r.cells == r.cells[..r.start] + (r.cells[r.start..r.ptr] + r.cells[r.ptr..]);
    assert r.OldestFirst() == r.cells[..r.start] + (r.cells[r.ptr..] + r.cells[r.start..r.ptr]);
  }

  // ---- the dynamic layers it replaces -------------------------------------

  /** What a sliding layer keeps: the last `window - 1` tokens. */
  function Slide<T>(window: nat, keys: seq<T>, chunk: seq<T>): seq<T>
    requires window >= 1
  {
    var full := keys + chunk;
    if |full| < window then full else full[|full| - (window - 1)..]
  }

  /** A dynamic layer that decodes: a sink and a ring, or a sliding window. */
  datatype Dynamic = SinkAndRing(sink: nat, window: nat) | Sliding(size: nat)
  {
    predicate Ok() { Sliding? ==> size >= 1 }

    /** A layer that stays at its capacity; a SinkRingLayer with an empty window does not. */
    predicate Drops() { if SinkAndRing? then window >= 1 else size >= 1 }

    /** Number of tokens stored at capacity. */
    function Stored(): nat
      requires Ok()
    {
      if SinkAndRing? then sink + window else size - 1
    }

    function Start(): nat { if SinkAndRing? then sink else 0 }

    function After<T>(keys: seq<T>, x: T): seq<T>
      requires Ok()
    {
      if SinkAndRing? then Advance(sink, window, keys, [x]) else Slide(size, keys, [x])
    }

    /** The keys stored after decoding these tokens one at a time. */
    function Keys<T>(keys: seq<T>, tokens: seq<T>): seq<T>
      requires Ok()
    {
      if tokens == [] then keys else After(Keys(keys, tokens[..|tokens| - 1]), tokens[|tokens| - 1])
    }
  }

  /** At capacity a dynamic layer drops the token right behind its sink. */
  lemma AfterAtCapacity<T>(d: Dynamic, keys: seq<T>, x: T)
    requires d.Drops() && |keys| == d.Stored()
    ensures d.After(keys, x) == (keys + [x])[..d.Start()] + (keys + [x])[d.Start() + 1..]
    ensures |d.After(keys, x)| == d.Stored()
  {
  }

  /** The buffer a full dynamic layer is copied into: one slot more than it stores, the pointer on that slot. */
  ghost function Convert<T>(d: Dynamic, keys: seq<T>, spare: T): Ring<T>
    requires d.Ok()
  {
    Ring(keys + [spare], d.Start(), d.Stored())
  }

  ghost function Decode<T>(r: Ring<T>, tokens: seq<T>): (d: Ring<T>)
    requires r.Ok()
    ensures d.Ok() && d.start == r.start && |d.cells| == |r.cells|
  {
    if tokens == [] then r else Decode(r, tokens[..|tokens| - 1]).Write(tokens[|tokens| - 1])
  }

  lemma {:induction false} KeptIsDynamic<T>(d: Dynamic, keys: seq<T>, spare: T, tokens: seq<T>)
    requires d.Ok() && |keys| == d.Stored() && (d.Drops() || tokens == [])
    ensures Decode(Convert(d, keys, spare), tokens).Kept() == d.Keys(keys, tokens)
    ensures |d.Keys(keys, tokens)| == d.Stored()
  {
    if tokens == [] {
      var r := Convert(d, keys, spare);
      assert r.Kept() == keys by {
        assert r.cells[r.ptr + 1..] == [];
      }
    } else {
      var n := |tokens| - 1;
      KeptIsDynamic(d, keys, spare, tokens[..n]);
      WriteShifts(Decode(Convert(d, keys, spare), tokens[..n]), tokens[n]);
      AfterAtCapacity(d, d.Keys(keys, tokens[..n]), tokens[n]);
    }
  }

  /**
   * After any number of decode steps the buffer, read from the pointer, is the sink followed by a
   * rotation of what the dynamic layer returns for the same step.
   */
  lemma StaticRefinesDynamic<T>(d: Dynamic, keys: seq<T>, spare: T, tokens: seq<T>, last: T)
    requires d.Ok() && |keys| == d.Stored() && (d.Drops() || tokens == [])
    ensures var r := Decode(Convert(d, keys, spare), tokens + [last]);
            var returned := d.Keys(keys, tokens) + [last];
            && r.OldestFirst() == returned
            && multiset(r.cells) == multiset(returned) && |r.cells| == |returned|
  {
    KeptIsDynamic(d, keys, spare, tokens);
    assert (tokens + [last])[..|tokens|] == tokens;
    WriteShifts(Decode(Convert(d, keys, spare), tokens), last);
    OldestFirstIsRotation(Decode(Convert(d, keys, spare), tokens + [last]));
  }

  /** So any readout that does not depend on the order of the entries gives the same result on both. */
  lemma ReadoutsAgree<T(!new), R>(d: Dynamic, keys: seq<T>, spare: T, tokens: seq<T>, last: T, readout: seq<T> -> R)
    requires d.Ok() && |keys| == d.Stored() && (d.Drops() || tokens == []) && OrderFree(readout)
    ensures readout(Decode(Convert(d, keys, spare), tokens + [last]).cells) == readout(d.Keys(keys, tokens) + [last])
  {
    StaticRefinesDynamic(d, keys, spare, tokens, last);
  }

  ghost predicate OrderFree<T(!new), R>(readout: seq<T> -> R) {
    forall a, b | multiset(a) == multiset(b) :: readout(a) == readout(b)
  }

  lemma {:induction false} FlattenSingles<T>(tokens: seq<T>)
    ensures Flatten(Singles(tokens)) == tokens
  {
    if tokens == [] {
    } else {
      var n := |tokens| - 1;
      FlattenSingles(tokens[..n]);
      assert Singles(tokens)[..n] == Singles(tokens[..n]);
    }
  }

  function Singles<T>(tokens: seq<T>): seq<seq<T>> {
    seq(|tokens|, i requires 0 <= i < |tokens| => [tokens[i]])
  }

  lemma SinglesSnoc<T>(tokens: seq<T>)
    requires tokens != []
    ensures Singles(tokens) == Singles(tokens[..|tokens| - 1]) + [[tokens[|tokens| - 1]]]
  {
  }

  lemma RunSnoc<T>(sink: nat, window: nat, chunks: seq<seq<T>>, chunk: seq<T>)
    ensures Run(sink, window, chunks + [chunk]) == Advance(sink, window, Run(sink, window, chunks), chunk)
  {
    assert (chunks + [chunk])[..|chunks|] == chunks;
  }

  /** `Keys` for a sink and a ring is what the layer itself stores after its prefill and the decode steps. */
  lemma {:induction false} KeysIsRun<T>(sink: nat, window: nat, prefill: seq<seq<T>>, tokens: seq<T>)
    ensures SinkAndRing(sink, window).Keys(Run(sink, window, prefill), tokens)
      == Run(sink, window, prefill + Singles(tokens))
  {
    hide Advance, Run;
    if tokens == [] {
      assert prefill + Singles(tokens) == prefill;
    } else {
      var n := |tokens| - 1;
      KeysIsRun(sink, window, prefill, tokens[..n]);
      SinglesSnoc(tokens);
      assert prefill + Singles(tokens) == prefill + Singles(tokens[..n]) + [[tokens[n]]];
      RunSnoc(sink, window, prefill + Singles(tokens[..n]), [tokens[n]]);
    }
  }

  /**
   * For every prefill that fills the layer and every number of decode steps: buffer and layer show
   * the same tokens exactly when the window is not empty or this is the first step.
   */
  lemma SameVisibleSet<T>(sink: nat, window: nat, prefill: seq<seq<T>>, spare: T, tokens: seq<T>, last: T)
    requires |Run(sink, window, prefill)| == sink + window
    ensures var shown := Decode(Convert(SinkAndRing(sink, window), Run(sink, window, prefill), spare),
                                tokens + [last]).cells;
            var returned := Run(sink, window, prefill + Singles(tokens)) + [last];
            multiset(shown) == multiset(returned) <==> window >= 1 || tokens == []
  {
    var d, keys := SinkAndRing(sink, window), Run(sink, window, prefill);
    KeysIsRun(sink, window, prefill, tokens);
    if window >= 1 || tokens == [] {
      StaticRefinesDynamic(d, keys, spare, tokens, last);
    } else {
      FlattenConcat(prefill, Singles(tokens));
      FlattenSingles(tokens);
      ZeroWindowKeepsTooMuch(sink, prefill);
      ZeroWindowKeepsTooMuch(sink, prefill + Singles(tokens));
      var shown := Decode(Convert(d, keys, spare), tokens + [last]).cells;
      assert |multiset(shown)| == sink + 1;
      assert |multiset(Run(sink, window, prefill + Singles(tokens)) + [last])| > sink + 1;
    }
  }

  // ---- the layer ----------------------------------------------------------

  class StaticRingLayer {
    const keys: array<KV>
    const ringStart: nat
    var ptr: nat
    var cumulativeLength: nat

    ghost predicate Valid()
      reads this, keys
    {
      State().Ok()
    }

    ghost function State(): Ring<KV>
      reads this, keys
    {
      Ring(keys[..], ringStart, ptr)
    }

    constructor (keys: array<KV>, ptr: nat, ringStart: nat, cumulativeLength: nat)
      requires ringStart <= ptr < keys.Length
      ensures Valid() && this.keys == keys && State() == Ring(keys[..], ringStart, ptr)
      ensures this.cumulativeLength == cumulativeLength
    {
      this.keys, this.ringStart, this.ptr, this.cumulativeLength := keys, ringStart, ptr, cumulativeLength;
    }

    /** The tensor operations of an update: all that a captured graph repeats when it is replayed. */
    method Replay(x: KV)
      requires Valid()
      modifies this`ptr, keys
      ensures Valid() && State() == old(State()).Write(x)
    {
      SlotInRing(State());
      keys[ptr] := x;
      ptr := (ptr - ringStart + 1) % (keys.Length - ringStart) + ringStart;
    }

    /** The host side of an update: all that happens to the layer while a graph is captured. */
    method Capture()
      modifies this`cumulativeLength
      ensures cumulativeLength == old(cumulativeLength) + 1
    {
      cumulativeLength := cumulativeLength + 1;
    }

    /** Writes one token in place and returns the whole buffer. */
    method Update(x: KV) returns (full: array<KV>)
      requires Valid()
      modifies this`ptr, this`cumulativeLength, keys
      ensures Valid() && full == keys && State() == old(State()).Write(x)
      ensures cumulativeLength == old(cumulativeLength) + 1
    {
      Replay(x);
      Capture();
      full := keys;
    }
  }

  /**
   * `to_static_cache` for one layer: refused unless the layer stores exactly its capacity; else the
   * buffer is the stored keys and one zeroed slot.
   */
  method ToStatic(d: Dynamic, keys: seq<KV>, cumulativeLength: nat, zero: KV) returns (r: Option<StaticRingLayer>)
    requires d.Ok()
    ensures r.Some? <==> |keys| == d.Stored()
    ensures r.Some? ==> fresh(r.value) && fresh(r.value.keys) && r.value.Valid()
                        && r.value.State() == Convert(d, keys, zero) && r.value.cumulativeLength == cumulativeLength
  {
    if |keys| != d.Stored() {
      return None;
    }
    var buffer := new KV[d.Stored() + 1](_ => zero);
    forall i | 0 <= i < |keys| {
      buffer[i] := keys[i];
    }
    assert buffer[..] == keys + [zero];
    var layer := new StaticRingLayer(buffer, d.Stored(), d.Start(), cumulativeLength);
    r := Some(layer);
  }

  /**
   * Decoding on both caches side by side, whatever the window: the layers run as their step functions
   * say, and with a window the static buffer keeps after every step exactly what the SinkRingLayer keeps.
   */
  method DecodeSideBySide(dyn: SinkRingLayer, layer: StaticRingLayer, tokens: seq<KV>)
    requires dyn.Valid() && layer.Valid() && layer.ringStart == dyn.sink
    requires |dyn.keys| == dyn.sink + dyn.window && layer.State().Kept() == dyn.keys
    modifies dyn, layer, layer.keys
    ensures dyn.Valid() && layer.Valid() && (dyn.window >= 1 || tokens == [] ==> layer.State().Kept() == dyn.keys)
    ensures layer.State() == Decode(old(layer.State()), tokens)
    ensures dyn.keys == SinkAndRing(dyn.sink, dyn.window).Keys(old(dyn.keys), tokens)
  {
    hide Advance, Run, Ring.Write, Ring.Kept, Ring.OldestFirst;
    var d := SinkAndRing(dyn.sink, dyn.window);
    var t := 0;
    while t < |tokens|
      invariant 0 <= t <= |tokens| && dyn.Valid() && layer.Valid()
      invariant dyn.window >= 1 || t == 0 ==> |dyn.keys| == dyn.sink + dyn.window && layer.State().Kept() == dyn.keys
      invariant layer.State() == Decode(old(layer.State()), tokens[..t])
      invariant dyn.keys == d.Keys(old(dyn.keys), tokens[..t])
    {
      if dyn.window >= 1 {
        WriteShifts(layer.State(), tokens[t]);
        AfterAtCapacity(d, dyn.keys, tokens[t]);
      }
      assert tokens[..t + 1][..t] == tokens[..t];
      var returned := dyn.Update([tokens[t]]);
      var buffer := layer.Update(tokens[t]);
      assert dyn.window >= 1 ==> layer.State().OldestFirst() == returned;
      t := t + 1;
    }
    assert tokens[..t] == tokens;
  }
}
