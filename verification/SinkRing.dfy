/** SinkRingLayer: the first `sink` tokens ever seen plus the last `window` tokens. */
module SinkRing {
  import opened Lists
  import opened Tokens

  /** The slice `s[-w:]`; with `w == 0` it is the whole sequence. */
  function LastSlice<T>(s: seq<T>, w: nat): seq<T> {
    if w == 0 || w >= |s| then s else s[|s| - w..]
  }

  /** What one update leaves in the cache. */
  function Advance<T>(sink: nat, window: nat, keys: seq<T>, chunk: seq<T>): seq<T> {
    var full := keys + chunk;
    if |full| > sink + window then full[..sink] + LastSlice(full, window) else full
  }

  function Run<T>(sink: nat, window: nat, chunks: seq<seq<T>>): seq<T> {
    if chunks == [] then []
    else Advance(sink, window, Run(sink, window, chunks[..|chunks| - 1]), chunks[|chunks| - 1])
  }

  /** The promised contents: the whole history below capacity, its two ends above. */
  function Ends<T>(sink: nat, window: nat, history: seq<T>): seq<T> {
    if |history| <= sink + window then history else history[..sink] + history[|history| - window..]
  }

  lemma LastOfConcat<T>(front: seq<T>, back: seq<T>, chunk: seq<T>)
    ensures (front + back + chunk)[|front| + |chunk|..] == (back + chunk)[|chunk|..]
  {
    assert front + back + chunk == front + (back + chunk);
  }

  lemma HeadOfConcat<T>(a: seq<T>, b: seq<T>, chunk: seq<T>)
    ensures (a + b + chunk)[..|a|] == a
  {
  }

  lemma AdvanceAboveCapacity<T>(sink: nat, window: nat, h: seq<T>, chunk: seq<T>)
    requires window >= 1 && |h| > sink + window && chunk != []
    ensures Advance(sink, window, Ends(sink, window, h), chunk) == Ends(sink, window, h + chunk)
  {
    hide LastSlice;
    var split := |h| - window;
    var a, m, b := h[..sink], h[sink..], h[split..];
    LastSliceIs(a + b + chunk, window);
    HeadOfConcat(a, b, chunk);
    HeadOfConcat(a, m, chunk);
    assert a + m == h && h[..split] + b == h;
    LastOfConcat(a, b, chunk);
    LastOfConcat(h[..split], b, chunk);
  }

  lemma LastSliceIs<T>(s: seq<T>, w: nat)
    requires 1 <= w <= |s|
    ensures LastSlice(s, w) == s[|s| - w..]
  {
  }

  lemma AdvanceEnds<T>(sink: nat, window: nat, h: seq<T>, chunk: seq<T>)
    requires window >= 1
    ensures Advance(sink, window, Ends(sink, window, h), chunk) == Ends(sink, window, h + chunk)
  {
    if |h| > sink + window {
      if chunk == [] {
        assert Ends(sink, window, h) + chunk == Ends(sink, window, h) && h + chunk == h;
      } else {
        AdvanceAboveCapacity(sink, window, h, chunk);
      }
    }
  }

  lemma {:induction false} RunIsEnds<T>(sink: nat, window: nat, chunks: seq<seq<T>>)
    requires window >= 1
    ensures Run(sink, window, chunks) == Ends(sink, window, Flatten(chunks))
  {
    if chunks == [] {
    } else {
      RunIsEnds(sink, window, chunks[..|chunks| - 1]);
      AdvanceEnds(sink, window, Flatten(chunks[..|chunks| - 1]), chunks[|chunks| - 1]);
    }
  }

  lemma {:induction false} ZeroWindowKeepsTooMuch<T>(sink: nat, chunks: seq<seq<T>>)
    ensures if |Flatten(chunks)| <= sink then Run(sink, 0, chunks) == Flatten(chunks)
            else |Run(sink, 0, chunks)| > sink
  {
    if chunks == [] {
    } else {
      ZeroWindowKeepsTooMuch(sink, chunks[..|chunks| - 1]);
    }
  }

  /**
   * However the stream is cut, the cache holds exactly the first `sink` and last `window`
   * tokens -- exactly when the window is not empty or the sink has not overflowed.
   */
  lemma ChunkingIsInvisible<T>(sink: nat, window: nat, chunks: seq<seq<T>>)
    ensures Run(sink, window, chunks) == Ends(sink, window, Flatten(chunks))
       <==> window >= 1 || |Flatten(chunks)| <= sink
  {
    if window >= 1 {
      RunIsEnds(sink, window, chunks);
    } else {
      ZeroWindowKeepsTooMuch(sink, chunks);
    }
  }

  // ---- where the stored entries come from ---------------------------------

  /** The absolute position of every token, cut as the stream was cut. */
  ghost function Positions<T>(chunks: seq<seq<T>>): (r: seq<seq<nat>>)
    ensures |r| == |chunks|
  {
    if chunks == [] then []
    else
      var n := |chunks| - 1;
      Positions(chunks[..n]) + [Range(|Flatten(chunks[..n])|, |chunks[n]|)]
  }

  /**
   * The true positions of the stored entries: the same cache fed positions instead of tokens; then
   * those of the next `n` tokens.
   */
  ghost function Origins<T>(sink: nat, window: nat, chunks: seq<seq<T>>, n: nat): seq<nat> {
    Run(sink, window, Positions(chunks)) + Range(|Flatten(chunks)|, n)
  }

  /** A causal mask over contiguous positions from `offset` lets query `i`, at `seen + i`, see entry `j`. */
  predicate Admits(offset: int, seen: nat, i: nat, j: nat) {
    offset + j <= seen + i
  }

  /** `xs` holds the tokens of `h` at the positions `at`. */
  ghost predicate Sits<T>(xs: seq<T>, at: seq<nat>, h: seq<T>) {
    |xs| == |at| && forall j | 0 <= j < |xs| :: at[j] < |h| && xs[j] == h[at[j]]
  }

  lemma AtAppend<T>(xs: seq<T>, at: seq<nat>, h: seq<T>, chunk: seq<T>)
    requires Sits(xs, at, h)
    ensures Sits(xs + chunk, at + Range(|h|, |chunk|), h + chunk)
  {
    var from := at + Range(|h|, |chunk|);
    forall j | 0 <= j < |xs + chunk| ensures from[j] < |h + chunk| && (xs + chunk)[j] == (h + chunk)[from[j]] {
      if j >= |xs| {
        assert from[j] == |h| + (j - |xs|) && (xs + chunk)[j] == chunk[j - |xs|];
      }
    }
  }

  lemma AtEnds<T>(xs: seq<T>, at: seq<nat>, h: seq<T>, m: nat, n: nat)
    requires Sits(xs, at, h) && m <= |xs| == |at| && n <= |xs|
    ensures Sits(xs[..m] + xs[n..], at[..m] + at[n..], h)
  {
  }

  lemma AdvanceAt<T>(sink: nat, window: nat, keys: seq<T>, at: seq<nat>, h: seq<T>, chunk: seq<T>)
    requires Sits(keys, at, h)
    ensures Sits(Advance(sink, window, keys, chunk), Advance(sink, window, at, Range(|h|, |chunk|)), h + chunk)
  {
    hide Sits, Range;
    var full, from := keys + chunk, at + Range(|h|, |chunk|);
    SitsLength(keys, at, h);
    AtAppend(keys, at, h, chunk);
    if |full| > sink + window {
      AtEnds(full, from, h + chunk, sink, if window == 0 then 0 else |full| - window);
      if window == 0 {
        assert full[0..] == full && from[0..] == from;
      }
    }
  }

  lemma SitsLength<T>(xs: seq<T>, at: seq<nat>, h: seq<T>)
    requires Sits(xs, at, h)
    ensures |xs| == |at|
  {
  }

  lemma {:induction false} StoredAt<T>(sink: nat, window: nat, chunks: seq<seq<T>>)
    ensures Sits(Run(sink, window, chunks), Run(sink, window, Positions(chunks)), Flatten(chunks))
  {
    if chunks == [] {
    } else {
      var n := |chunks| - 1;
      StoredAt(sink, window, chunks[..n]);
      AdvanceAt(sink, window, Run(sink, window, chunks[..n]), Run(sink, window, Positions(chunks[..n])),
                Flatten(chunks[..n]), chunks[n]);
      PositionsSnoc(chunks);
      hide Advance, Sits;
    }
  }

  lemma PositionsSnoc<T>(chunks: seq<seq<T>>)
    requires chunks != []
    ensures var n := |chunks| - 1;
            && Positions(chunks)[..n] == Positions(chunks[..n])
            && Positions(chunks)[n] == Range(|Flatten(chunks[..n])|, |chunks[n]|)
  {
  }

  /**
   * Whatever the window, the stream and its cut: every returned entry is the token at its true
   * position, and a causal mask over contiguous positions that end with the last query lets query
   * `i` see entry `j` exactly when the true position of `j` is not after the query.
   */
  lemma MaskIsExact<T>(sink: nat, window: nat, chunks: seq<seq<T>>, chunk: seq<T>, i: nat, j: nat)
    requires i < |chunk| && j < |Run(sink, window, chunks)| + |chunk|
    ensures var stored, seen, at := |Run(sink, window, chunks)|, |Flatten(chunks)|,
      Origins(sink, window, chunks, |chunk|);
            && |at| == stored + |chunk| && at[j] < |Flatten(chunks) + chunk|
            && (Run(sink, window, chunks) + chunk)[j] == (Flatten(chunks) + chunk)[at[j]]
            && (Admits(seen - stored, seen, i, j) <==> at[j] <= seen + i)
  {
    StoredAt(sink, window, chunks);
    AtAppend(Run(sink, window, chunks), Run(sink, window, Positions(chunks)), Flatten(chunks), chunk);
    EntryPlace(sink, window, chunks, chunk, j);
  }

  /** A stored entry lies before the chunk, a new one where the mask puts it. */
  lemma EntryPlace<T>(sink: nat, window: nat, chunks: seq<seq<T>>, chunk: seq<T>, j: nat)
    requires j < |Run(sink, window, chunks)| + |chunk|
    ensures var stored, seen, at := |Run(sink, window, chunks)|, |Flatten(chunks)|,
      Origins(sink, window, chunks, |chunk|);
            |at| == stored + |chunk| && if j < stored then at[j] < seen else at[j] == seen + (j - stored)
  {
    StoredAt(sink, window, chunks);
    hide Run, Flatten;
  }

  /** With a window the true positions are the two ends of the stream. */
  lemma StoredPositions<T>(sink: nat, window: nat, chunks: seq<seq<T>>, j: nat)
    requires window >= 1 && j < |Run(sink, window, chunks)|
    ensures var at, stored := Origins(sink, window, chunks, 0), |Run(sink, window, chunks)|;
            |at| == stored && at[j] == if j < Min(sink, stored) then j else |Flatten(chunks)| - stored + j
  {
    StoredAt(sink, window, chunks);
    RunIsEnds(sink, window, Positions(chunks));
    RunIsEnds(sink, window, chunks);
    AllPositions(chunks);
  }

  lemma {:induction false} AllPositions<T>(chunks: seq<seq<T>>)
    ensures Flatten(Positions(chunks)) == Range(0, |Flatten(chunks)|)
  {
    if chunks == [] {
    } else {
      var n := |chunks| - 1;
      AllPositions(chunks[..n]);
      PositionsSnoc(chunks);
    }
  }

  class SinkRingLayer {
    const sink: nat
    const window: nat
    var keys: seq<KV>
    var cumulativeLength: nat
    ghost var chunks: seq<seq<KV>>

    ghost predicate Valid()
      reads this
    {
      && keys == Run(sink, window, chunks)
      && cumulativeLength == |Flatten(chunks)|
    }

    constructor (sink: nat, window: nat)
      ensures Valid() && this.sink == sink && this.window == window && chunks == []
    {
      this.sink, this.window := sink, window;
      keys, cumulativeLength, chunks := [], 0, [];
    }

    method Update(chunk: seq<KV>) returns (full: seq<KV>)
      requires Valid()
      modifies this
      ensures Valid() && chunks == old(chunks) + [chunk]
      ensures full == old(keys) + chunk
      ensures keys == Advance(sink, window, old(keys), chunk)
      ensures cumulativeLength == old(cumulativeLength) + |chunk|
    {
      cumulativeLength := cumulativeLength + |chunk|;
      full := keys + chunk;
      if |full| > sink + window {
        keys := full[..sink] + LastSlice(full, window);
      } else {
        keys := full;
      }
      chunks := chunks + [chunk];
      assert chunks[..|chunks| - 1] == old(chunks);
    }

    /**
     * The causal mask for the next `queryLength` tokens: as wide as what `Update` will return, ending
     * with the last query, and showing query `i` exactly the entries whose true position is not after it.
     */
    method GetMaskSizes(queryLength: nat) returns (kvLength: nat, kvOffset: int)
      requires Valid()
      ensures kvLength == |Origins(sink, window, chunks, queryLength)|
      ensures kvOffset + kvLength == cumulativeLength + queryLength
      ensures forall i, j | 0 <= i < queryLength && 0 <= j < kvLength ::
        Admits(kvOffset, cumulativeLength, i, j) <==>
          Origins(sink, window, chunks, queryLength)[j] <= cumulativeLength + i
    {
      StoredAt(sink, window, chunks);
      var stored := |keys|;
      kvLength, kvOffset := stored + queryLength, cumulativeLength - stored;
    }
  }
}
