/**
 * PaddedRoutedSpanDecodeLayer: rows with different layouts decode together, padded to one width
 * behind a mask. Every row must behave like its own RoutedSpanLayer.
 */
module PaddedBatch {
  import opened Lists
  import opened Tokens
  import opened Eviction
  import opened OpLog
  import opened Routed
  import opened RoutedSpanSpec

  datatype MergeError = CumulativeDiffer | RouteChunkDiffer | PendingDiffer | WouldRoute
  datatype StepError = NotDecode | CrossesRouteChunk

  lemma VisibleSnoc<T>(row: seq<T>, mask: seq<bool>, x: T, b: bool)
    requires |row| == |mask|
    ensures Visible(row + [x], mask + [b]) == Visible(row, mask) + if b then [x] else []
  {
    assert (row + [x])[..|row|] == row && (mask + [b])[..|mask|] == mask;
  }

  /** A row padded on the right to the batch width. */
  function PadRow<T>(row: seq<T>, pad: T, width: nat): seq<T>
    requires |row| <= width
  {
    row + seq(width - |row|, _ => pad)
  }

  /** The mask that hides the padding of a row of this length. */
  function PadMask(length: nat, width: nat): seq<bool>
    requires length <= width
  {
    seq(length, _ => true) + seq(width - length, _ => false)
  }

  lemma {:induction false} AllVisible<T>(row: seq<T>)
    ensures Visible(row, seq(|row|, _ => true)) == row
  {
    if row == [] {
    } else {
      AllVisible(row[..|row| - 1]);
      assert seq(|row|, _ => true)[..|row| - 1] == seq(|row| - 1, _ => true);
    }
  }

  lemma {:induction false} PaddingIsHidden<T>(row: seq<T>, pad: T, width: nat)
    requires |row| <= width
    ensures |PadRow(row, pad, width)| == |PadMask(|row|, width)| == width
    ensures Visible(PadRow(row, pad, width), PadMask(|row|, width)) == row
    decreases width
  {
    if width == |row| {
      AllVisible(row);
      assert PadRow(row, pad, width) == row;
      assert PadMask(|row|, width) == seq(|row|, _ => true);
    } else {
      PaddingIsHidden(row, pad, width - 1);
      VisibleSnoc(PadRow(row, pad, width - 1), PadMask(|row|, width - 1), pad, false);
      assert PadRow(row, pad, width) == PadRow(row, pad, width - 1) + [pad];
      assert PadMask(|row|, width) == PadMask(|row|, width - 1) + [false];
    }
  }

  /** A request of its own: the state, history and span blocks of its RoutedSpanLayer. */
  datatype Row = Row(cfg: Config, bank: Bank, history: seq<KV>, blocks: seq<Block>)
  {
    function Keys(): seq<KV> { Materialized(bank.win, Views(bank.slots)) }

    ghost predicate Ok() { Sound(cfg, bank, history, blocks) }

    /** This row after its own layer took one token without folding. */
    ghost function Next(x: KV): Row
      requires |bank.win.sink| <= cfg.sink
    {
      Row(cfg, Admitted(cfg, bank, [x]), history + [x], blocks)
    }
  }

  /** The row's own layer appends the token: its update does not fold, whatever the log holds. */
  lemma RowAppends(row: Row, x: KV, log: seq<Op>)
    requires row.Ok() && |row.bank.win.pend| + 1 < row.cfg.routeChunk
    ensures |row.bank.win.sink| <= row.cfg.sink
    ensures Step(row.cfg, row.bank, [x], log) == Done(row.Next(x).bank)
    ensures row.Next(x).Ok() && row.Next(x).Keys() == row.Keys() + [x]
    ensures |row.Next(x).bank.win.pend| <= |row.bank.win.pend| + 1
  {
    RowFits(row);
    AdmittedSound(row.cfg, row.bank, row.history, row.blocks, [x]);
    hide Sound, BankOk, Admit, Materialized;
    AdmitGrowth(row.cfg.sink, row.cfg.window, row.bank.win, row.bank.evicted, row.history, [x]);
    FoldFreeUpdateAppends(row.cfg.dim, row.cfg.sink, row.cfg.window, row.bank.win, Views(row.bank.slots), row.history,
                          Labels(row.bank.chunks), [x]);
  }

  lemma RowFits(row: Row)
    requires row.Ok()
    ensures Holds(row.cfg.sink, row.cfg.window, row.bank.win, row.bank.evicted, row.history)
    ensures BankOk(row.cfg.dim, row.cfg.sink, row.cfg.window, row.bank.win, Views(row.bank.slots), row.history,
                   Labels(row.bank.chunks))
  {
    hide SlotOk, BlocksOk, SpansSound, ChunksOk;
  }

  /** A padded batch shows, row by row, exactly what the row's own layer holds. */
  ghost predicate Refines(keys: seq<seq<KV>>, mask: seq<seq<bool>>, width: nat, rows: seq<Row>) {
    && |keys| == |mask| == |rows|
    && forall i | 0 <= i < |rows| :: RowShown(keys[i], mask[i], width, rows[i])
  }

  ghost predicate RowShown(keys: seq<KV>, mask: seq<bool>, width: nat, row: Row) {
    |keys| == |mask| == width && row.Ok() && Visible(keys, mask) == row.Keys()
  }

  lemma RowStep(keys: seq<KV>, mask: seq<bool>, width: nat, row: Row, x: KV)
    requires RowShown(keys, mask, width, row) && |row.bank.win.pend| + 1 < row.cfg.routeChunk
    ensures |row.bank.win.sink| <= row.cfg.sink
    ensures RowShown(keys + [x], mask + [true], width + 1, row.Next(x))
    ensures |row.Next(x).bank.win.pend| <= |row.bank.win.pend| + 1
    ensures row.Next(x).Keys() == row.Keys() + [x]
  {
    hide Sound, Materialized, Admit;
    RowAppends(row, x, []);
    VisibleSnoc(keys, mask, x, true);
  }

  class PaddedRoutedSpanDecodeLayer {
    const routeChunk: nat
    var keys: seq<seq<KV>>
    var validMask: seq<seq<bool>>
    var cumulativeLength: nat
    var pendingTail: nat
    ghost var width: nat
    ghost var rows: seq<Row>

    ghost predicate Valid()
      reads this
    {
      && Refines(keys, validMask, width, rows)
      && forall i | 0 <= i < |rows| ::
           rows[i].cfg.routeChunk == routeChunk && |rows[i].bank.win.pend| <= pendingTail
             && rows[i].bank.seen == cumulativeLength
    }

    constructor (keys: seq<seq<KV>>, mask: seq<seq<bool>>, cumulativeLength: nat, routeChunk: nat, pendingTail: nat,
                 ghost width: nat, ghost rows: seq<Row>)
      requires Refines(keys, mask, width, rows)
      requires forall i | 0 <= i < |rows| ::
        rows[i].cfg.routeChunk == routeChunk && |rows[i].bank.win.pend| <= pendingTail
          && rows[i].bank.seen == cumulativeLength
      ensures Valid() && this.keys == keys && this.validMask == mask && this.width == width && this.rows == rows
      ensures this.routeChunk == routeChunk && this.pendingTail == pendingTail
        && this.cumulativeLength == cumulativeLength
    {
      this.keys, this.validMask, this.cumulativeLength := keys, mask, cumulativeLength;
      this.routeChunk, this.pendingTail, this.width, this.rows := routeChunk, pendingTail, width, rows;
    }

    /**
     * One decode step for all rows. It fails only on a chunk that is not one token per row or when the
     * shared tail reaches the routing chunk; else every row becomes what its own layer would be, and
     * the mask of the step -- the old mask and one visible column -- shows in the returned keys exactly
     * what that layer returns.
     */
    method Update(chunks: seq<seq<KV>>) returns (r: Result<seq<seq<KV>>, StepError>)
      requires Valid() && |chunks| == |keys|
      modifies this
      ensures Valid()
      ensures r.Ok? <==> (forall i | 0 <= i < |chunks| :: |chunks[i]| == 1) && old(pendingTail) + 1 < routeChunk
      ensures r.Err? ==>
        keys == old(keys) && validMask == old(validMask) && rows == old(rows) && pendingTail == old(pendingTail)
                         && width == old(width) && cumulativeLength == old(cumulativeLength)
      ensures r.Ok? ==> r.value == keys && width == old(width) + 1 && pendingTail == old(pendingTail) + 1
                        && |rows| == |old(rows)| && |validMask| == |old(validMask)|
      ensures r.Ok? ==> forall i | 0 <= i < |rows| ::
        && |old(rows)[i].bank.win.sink| <= old(rows)[i].cfg.sink
        && rows[i] == old(rows)[i].Next(chunks[i][0])
        && validMask[i] == old(validMask)[i] + [true]
        && keys[i] == old(keys)[i] + chunks[i]
        && rows[i].Keys() == old(rows)[i].Keys() + chunks[i]
        && |keys[i]| == |validMask[i]| && Visible(keys[i], validMask[i]) == rows[i].Keys()
    {
      hide Visible, Sound, Materialized;
      if exists i | 0 <= i < |chunks| :: |chunks[i]| != 1 {
        return Err(NotDecode);
      }
      if pendingTail + 1 >= routeChunk {
        return Err(CrossesRouteChunk);
      }
      ghost var next := BatchStep(keys, validMask, width, rows, chunks);
      keys := seq(|chunks|, i requires 0 <= i < |chunks| && |keys| == |chunks| reads this => keys[i] + chunks[i]);
      validMask := seq(|validMask|, i requires 0 <= i < |validMask| reads this => validMask[i] + [true]);
      cumulativeLength, pendingTail, width := cumulativeLength + 1, pendingTail + 1, width + 1;
      rows := next;
      r := Ok(keys);
    }
  }

  /** One step of every row's own layer, beside one more column of the batch. */
  lemma BatchStep(keys: seq<seq<KV>>, mask: seq<seq<bool>>, width: nat, rows: seq<Row>, chunks: seq<seq<KV>>)
    returns (next: seq<Row>)
    requires Refines(keys, mask, width, rows) && |chunks| == |keys| && forall i | 0 <= i < |chunks| :: |chunks[i]| == 1
    requires forall i | 0 <= i < |rows| :: |rows[i].bank.win.pend| + 1 < rows[i].cfg.routeChunk
    ensures |next| == |rows|
    ensures forall i | 0 <= i < |rows| :: RowStepped(keys[i], mask[i], width, rows[i], chunks[i], next[i])
  {
    hide RowShown, Visible;
    next := [];
    while |next| < |rows|
      invariant |next| <= |rows|
      invariant forall i | 0 <= i < |next| :: RowStepped(keys[i], mask[i], width, rows[i], chunks[i], next[i])
    {
      var i := |next|;
      assert chunks[i] == [chunks[i][0]];
      RowStep(keys[i], mask[i], width, rows[i], chunks[i][0]);
      next := next + [rows[i].Next(chunks[i][0])];
    }
  }

  /** What one decode step makes of one row. */
  ghost predicate RowStepped(keys: seq<KV>, mask: seq<bool>, width: nat, row: Row, chunk: seq<KV>, next: Row) {
    && |chunk| == 1 && |row.bank.win.sink| <= row.cfg.sink && next == row.Next(chunk[0])
    && RowShown(keys + chunk, mask + [true], width + 1, next)
    && next.Keys() == row.Keys() + chunk
    && next.cfg.routeChunk == row.cfg.routeChunk && next.bank.seen == row.bank.seen + 1
    && |next.bank.win.pend| <= |row.bank.win.pend| + 1
  }

  /** Longest materialised row. */
  method MaxWidth(keys: seq<seq<KV>>) returns (width: nat)
    ensures forall i | 0 <= i < |keys| :: |keys[i]| <= width
    ensures keys != [] ==> exists i :: 0 <= i < |keys| && |keys[i]| == width
  {
    width := 0;
    var i := 0;
    while i < |keys|
      invariant 0 <= i <= |keys|
      invariant forall j | 0 <= j < i :: |keys[j]| <= width
      invariant if i == 0 then width == 0 else exists j :: 0 <= j < i && |keys[j]| == width
    {
      if |keys[i]| >= width {
        width := |keys[i]|;
      }
      i := i + 1;
    }
  }

  ghost predicate SameSeen(rows: seq<Row>) {
    forall i, j | 0 <= i < |rows| && 0 <= j < |rows| :: rows[i].bank.seen == rows[j].bank.seen
  }

  ghost predicate SameRouteChunk(rows: seq<Row>) {
    forall i, j | 0 <= i < |rows| && 0 <= j < |rows| :: rows[i].cfg.routeChunk == rows[j].cfg.routeChunk
  }

  ghost predicate SamePending(rows: seq<Row>) {
    forall i, j | 0 <= i < |rows| && 0 <= j < |rows| :: |rows[i].bank.win.pend| == |rows[j].bank.win.pend|
  }

  /** No row's decode can reach its routing chunk. */
  ghost predicate StaysPending(rows: seq<Row>, steps: nat) {
    forall i | 0 <= i < |rows| :: |rows[i].bank.win.pend| + steps < rows[i].cfg.routeChunk
  }

  ghost predicate Mergeable(rows: seq<Row>, steps: nat) {
    SameSeen(rows) && SameRouteChunk(rows) && SamePending(rows) && StaysPending(rows, steps)
  }

  /** Pads every row to the longest one, and builds the mask that hides the padding. */
  method PadAndStack(stored: seq<seq<KV>>, pad: KV) returns (out: seq<seq<KV>>, mask: seq<seq<bool>>, width: nat)
    ensures |out| == |mask| == |stored|
    ensures forall i | 0 <= i < |stored| :: |stored[i]| <= width
    ensures stored != [] ==> exists i :: 0 <= i < |stored| && |stored[i]| == width
    ensures forall i | 0 <= i < |stored| :: |out[i]| == |mask[i]| == width && Visible(out[i], mask[i]) == stored[i]
  {
    width := MaxWidth(stored);
    out, mask := [], [];
    while |out| < |stored|
      invariant |out| == |mask| <= |stored|
      invariant forall i | 0 <= i < |out| :: |out[i]| == |mask[i]| == width && Visible(out[i], mask[i]) == stored[i]
    {
      var row := stored[|out|];
      PaddingIsHidden(row, pad, width);
      out, mask := out + [PadRow(row, pad, width)], mask + [PadMask(|row|, width)];
    }
  }

  /** The guard of the padded merge: the first complaint, or none. */
  method MergeGuard(rows: seq<Row>, steps: nat) returns (error: Option<MergeError>)
    requires rows != []
    ensures error.None? <==> Mergeable(rows, steps)
    ensures error == Some(CumulativeDiffer) <==> !SameSeen(rows)
    ensures error == Some(RouteChunkDiffer) <==> SameSeen(rows) && !SameRouteChunk(rows)
    ensures error == Some(PendingDiffer) <==> SameSeen(rows) && SameRouteChunk(rows) && !SamePending(rows)
  {
    var base := rows[0];
    if exists i | 0 <= i < |rows| :: rows[i].bank.seen != base.bank.seen {
      return Some(CumulativeDiffer);
    }
    if exists i | 0 <= i < |rows| :: rows[i].cfg.routeChunk != base.cfg.routeChunk {
      return Some(RouteChunkDiffer);
    }
    if exists i | 0 <= i < |rows| :: |rows[i].bank.win.pend| != |base.bank.win.pend| {
      return Some(PendingDiffer);
    }
    return if |base.bank.win.pend| + steps >= base.cfg.routeChunk then Some(WouldRoute) else None;
  }

  /** The padded merge: it succeeds exactly for rows in step whose decode cannot reach a fold. */
  method MergePadded(rows: seq<Row>, steps: nat) returns (r: Result<PaddedRoutedSpanDecodeLayer, MergeError>)
    requires rows != [] && forall i | 0 <= i < |rows| :: rows[i].Ok()
    ensures r.Ok? <==> Mergeable(rows, steps)
    ensures r.Ok? ==> fresh(r.value) && r.value.Valid() && r.value.rows == rows
    ensures r.Ok? ==> r.value.pendingTail + steps < r.value.routeChunk
  {
    hide Sound, Materialized, Visible;
    var error := MergeGuard(rows, steps);
    if error.Some? {
      return Err(error.value);
    }
    var base := rows[0];
    var stored := seq(|rows|, i requires 0 <= i < |rows| => rows[i].Keys());
    var keys, mask, width := PadAndStack(stored, Zero(base.cfg.dim));
    forall i | 0 <= i < |rows| ensures RowShown(keys[i], mask[i], width, rows[i]) {
      assert stored[i] == rows[i].Keys();
    }
    var layer := new PaddedRoutedSpanDecodeLayer(keys, mask, base.bank.seen, base.cfg.routeChunk, |base.bank.win.pend|,
                                                 width, rows);
    r := Ok(layer);
  }

  /** A row after its own layer took these tokens one by one. */
  ghost function Decoded(row: Row, tokens: seq<KV>): Row {
    if tokens == [] then row
    else
      var before := Decoded(row, tokens[..|tokens| - 1]);
      if |before.bank.win.sink| <= before.cfg.sink then before.Next(tokens[|tokens| - 1]) else before
  }

  /** The row's own RoutedSpanLayer fed the tokens one decode step at a time, with the log it is given. */
  ghost function OwnRun(row: Row, tokens: seq<KV>, log: seq<Op>): Outcome<Bank> {
    if tokens == [] then Done(row.bank)
    else
      match OwnRun(row, tokens[..|tokens| - 1], log)
      case Raised(e) => Raised(e)
      case Done(b) =>
        if |b.win.sink| > row.cfg.sink then Raised(Misfit) else Step(row.cfg, b, [tokens[|tokens| - 1]], log)
  }

  /** Below the routing chunk the own run never folds or raises, and only appends to what the row shows. */
  lemma {:induction false} DecodedIsOwnRun(row: Row, tokens: seq<KV>, log: seq<Op>)
    requires row.Ok() && |row.bank.win.pend| + |tokens| < row.cfg.routeChunk
    ensures OwnRun(row, tokens, log) == Done(Decoded(row, tokens).bank)
    ensures Decoded(row, tokens).Ok() && Decoded(row, tokens).cfg == row.cfg
    ensures |Decoded(row, tokens).bank.win.pend| <= |row.bank.win.pend| + |tokens|
    ensures Decoded(row, tokens).Keys() == row.Keys() + tokens
  {
    hide Sound, Materialized, Step;
    if tokens == [] {
      assert row.Keys() + tokens == row.Keys();
    } else {
      var n := |tokens| - 1;
      DecodedIsOwnRun(row, tokens[..n], log);
      RowAppends(Decoded(row, tokens[..n]), tokens[n], log);
      assert row.Keys() + tokens[..n] + [tokens[n]] == row.Keys() + tokens;
    }
  }

  /**
   * Greedy decode of at most the admitted number of steps: no step fails, and afterwards every row
   * shows exactly the keys its own RoutedSpanLayer would hold after its own tokens.
   */
  method DecodeAll(layer: PaddedRoutedSpanDecodeLayer, steps: seq<seq<KV>>)
    requires layer.Valid() && layer.pendingTail + |steps| < layer.routeChunk
    requires forall t | 0 <= t < |steps| :: |steps[t]| == |layer.keys|
    modifies layer
    ensures layer.Valid() && |layer.rows| == |old(layer.rows)|
    ensures forall i | 0 <= i < |layer.rows| ::
      && OwnRun(old(layer.rows)[i], TokensOf(steps, i), []) == Done(layer.rows[i].bank)
      && |layer.keys[i]| == |layer.validMask[i]|
      && Visible(layer.keys[i], layer.validMask[i]) == layer.rows[i].Keys()
         == old(layer.rows)[i].Keys() + TokensOf(steps, i)
  {
    hide RowShown, Visible, Sound, Materialized, OwnRun, Decoded, TokensOf, Row.Next, Row.Ok;
    var t := 0;
    NothingDecoded(layer.rows);
    RowsReady(layer);
    assert steps[..0] == [];
    while t < |steps|
      invariant 0 <= t <= |steps| && layer.Valid() && layer.pendingTail + (|steps| - t) < layer.routeChunk
      invariant |layer.keys| == |old(layer.keys)| && |layer.rows| == |old(layer.rows)|
      invariant forall i | 0 <= i < |layer.rows| ::
        layer.rows[i] == Decoded(old(layer.rows)[i], TokensOf(steps[..t], i))
    {
      label before:
      var step := steps[t];
      var chunks := seq(|step|, i requires 0 <= i < |step| => [step[i]]);
      var r := layer.Update(chunks);
      forall i | 0 <= i < |layer.rows|
        ensures layer.rows[i] == Decoded(old(layer.rows)[i], TokensOf(steps[..t + 1], i))
      {
        assert layer.rows[i] == old@before(layer.rows)[i].Next(step[i]);
        DecodedSnoc(old(layer.rows)[i], steps, t, i);
      }
      t := t + 1;
    }
    assert steps[..t] == steps;
    forall i | 0 <= i < |layer.rows|
      ensures OwnRun(old(layer.rows)[i], TokensOf(steps, i), []) == Done(layer.rows[i].bank)
      ensures layer.rows[i].Keys() == old(layer.rows)[i].Keys() + TokensOf(steps, i)
    {
      TokensCount(steps, i, |layer.rows|);
      DecodedIsOwnRun(old(layer.rows)[i], TokensOf(steps, i), []);
    }
    RowsReady(layer);
  }

  lemma RowsReady(layer: PaddedRoutedSpanDecodeLayer)
    requires layer.Valid()
    ensures |layer.keys| == |layer.validMask| == |layer.rows|
    ensures forall i | 0 <= i < |layer.rows| ::
      && layer.rows[i].Ok() && layer.rows[i].cfg.routeChunk == layer.routeChunk
      && |layer.rows[i].bank.win.pend| <= layer.pendingTail && |layer.keys[i]| == |layer.validMask[i]|
      && Visible(layer.keys[i], layer.validMask[i]) == layer.rows[i].Keys()
  {
    hide Row.Ok, Row.Keys, Visible;
  }

  lemma NothingDecoded(rows: seq<Row>)
    ensures forall i | 0 <= i < |rows| :: rows[i] == Decoded(rows[i], TokensOf([], i))
  {
  }

  /** The tokens row `i` takes over a run of steps. */
  function TokensOf(steps: seq<seq<KV>>, i: nat): seq<KV> {
    if steps == [] then []
    else
      var last := steps[|steps| - 1];
      TokensOf(steps[..|steps| - 1], i) + if i < |last| then [last[i]] else []
  }

  lemma {:induction false} TokensCount(steps: seq<seq<KV>>, i: nat, rows: nat)
    requires i < rows && forall t | 0 <= t < |steps| :: |steps[t]| == rows
    ensures |TokensOf(steps, i)| == |steps|
  {
    if steps == [] {
    } else {
      TokensCount(steps[..|steps| - 1], i, rows);
    }
  }

  lemma DecodedSnoc(row: Row, steps: seq<seq<KV>>, t: nat, i: nat)
    requires t < |steps| && i < |steps[t]|
    ensures TokensOf(steps[..t + 1], i) == TokensOf(steps[..t], i) + [steps[t][i]]
    ensures var before := Decoded(row, TokensOf(steps[..t], i));
            |before.bank.win.sink| <= before.cfg.sink ==>
              Decoded(row, TokensOf(steps[..t + 1], i)) == before.Next(steps[t][i])
  {
    assert steps[..t + 1][..t] == steps[..t];
    var more := TokensOf(steps[..t + 1], i);
    assert more[..|more| - 1] == TokensOf(steps[..t], i);
  }

  // ---- the one mask of a forward pass --------------------------------------

  /**
   * `_padded_decode_mask_kwargs`: one mask for all padded layers, or an error when their masks differ.
   * Its rows are the shared mask and one visible column for the token of the step.
   */
  method PaddedDecodeMask(masks: seq<seq<seq<bool>>>) returns (r: Option<Result<seq<seq<bool>>, ()>>)
    ensures masks == [] <==> r.None?
    ensures r.Some? ==> (r.value.Ok? <==> forall m | m in masks :: m == masks[0])
    ensures r.Some? && r.value.Ok? ==>
      |r.value.value| == |masks[0]| && forall i | 0 <= i < |masks[0]| :: r.value.value[i] == masks[0][i] + [true]
  {
    if masks == [] {
      return None;
    }
    var first := masks[0];
    var k := 1;
    while k < |masks|
      invariant 1 <= k <= |masks|
      invariant forall j | 0 <= j < k :: masks[j] == first
    {
      if masks[k] != first {
        assert masks[k] in masks;
        return Some(Err(()));
      }
      k := k + 1;
    }
    r := Some(Ok(seq(|first|, i requires 0 <= i < |first| => first[i] + [true])));
  }
}
