/** Splitting a pending chunk into spans at sentence breaks. */
module SpanSplit {
  import opened Lists

  datatype SplitConfig = SplitConfig(maxSpan: nat, fallback: nat) {
    predicate Ok() { maxSpan >= 1 && fallback >= 1 }

    function Limit(): nat { Max(maxSpan, fallback) }
  }

  type Bounds = seq<(nat, nat)>

  /**
   * Whether token `i` of the chunk that starts at `start` ends a sentence: the break mask says so
   * where it reaches, else every `fallback`-th token of the chunk does.
   */
  predicate IsBreak(cfg: SplitConfig, mask: Option<seq<bool>>, start: nat, i: nat)
    requires cfg.Ok()
  {
    if mask.Some? && start + i < |mask.value| then mask.value[start + i] else (i + 1) % cfg.fallback == 0
  }

  /** Non-empty spans that cover [0, upto) in order, without gap or overlap. */
  predicate Tiled(spans: Bounds, upto: nat) {
    && (spans == [] ==> upto == 0)
    && (spans != [] ==> spans[0].0 == 0 && spans[|spans| - 1].1 == upto)
    && (forall j | 0 <= j < |spans| :: spans[j].0 < spans[j].1)
    && forall j | 0 <= j < |spans| - 1 :: spans[j].1 == spans[j + 1].0
  }

  ghost predicate HasBreak(cfg: SplitConfig, mask: Option<seq<bool>>, start: nat, total: nat)
    requires cfg.Ok()
  {
    exists i | 0 <= i < total :: IsBreak(cfg, mask, start, i)
  }

  /**
   * A span has no break before its last token. In a chunk with a break no span is longer than `maxSpan`,
   * and one that does not end at a break is exactly that long; in a chunk without one, all spans before
   * the last are `fallback` long.
   */
  ghost predicate SpanOk(cfg: SplitConfig, mask: Option<seq<bool>>, start: nat, total: nat, s: (nat, nat))
    requires cfg.Ok()
  {
    && s.0 < s.1 && (forall i | s.0 <= i < s.1 - 1 :: !IsBreak(cfg, mask, start, i))
    && if HasBreak(cfg, mask, start, total)
       then s.1 - s.0 <= cfg.maxSpan && (IsBreak(cfg, mask, start, s.1 - 1) || s.1 - s.0 == cfg.maxSpan)
       else s.1 - s.0 <= cfg.fallback && (s.1 == total || s.1 - s.0 == cfg.fallback)
  }

  /** Everything up to the last break is routed, or everything when there is none. */
  ghost predicate RoutedPart(cfg: SplitConfig, mask: Option<seq<bool>>, start: nat, total: nat, routed: nat)
    requires cfg.Ok()
  {
    && routed <= total
    && (forall i | routed <= i < total :: !IsBreak(cfg, mask, start, i))
    && (if HasBreak(cfg, mask, start, total) then routed > 0 && IsBreak(cfg, mask, start, routed - 1)
        else routed == total)
  }

  ghost predicate EndsAtBreaks(cfg: SplitConfig, mask: Option<seq<bool>>, start: nat, spans: Bounds, upto: nat)
    requires cfg.Ok()
  {
    forall i | 0 <= i < upto && IsBreak(cfg, mask, start, i) :: exists j :: 0 <= j < |spans| && spans[j].1 == i + 1
  }

  ghost predicate SplitOk(cfg: SplitConfig, mask: Option<seq<bool>>, start: nat, total: nat, spans: Bounds, routed: nat)
    requires cfg.Ok()
  {
    && Tiled(spans, routed) && RoutedPart(cfg, mask, start, total, routed)
    && (forall j | 0 <= j < |spans| :: SpanOk(cfg, mask, start, total, spans[j]))
    && EndsAtBreaks(cfg, mask, start, spans, routed)
  }

  method FindBreaks(cfg: SplitConfig, mask: Option<seq<bool>>, start: nat, total: nat) returns (breaks: seq<nat>)
    requires cfg.Ok()
    ensures Increasing(breaks) && Below(breaks, total)
    ensures forall i | 0 <= i < total :: i in breaks <==> IsBreak(cfg, mask, start, i)
  {
    breaks := [];
    var i := 0;
    while i < total
      invariant 0 <= i <= total && Increasing(breaks) && Below(breaks, i)
      invariant forall k | 0 <= k < i :: k in breaks <==> IsBreak(cfg, mask, start, k)
    {
      hide IsBreak;
      if IsBreak(cfg, mask, start, i) {
        breaks := breaks + [i];
      }
      i := i + 1;
    }
  }

  lemma TiledExtend(spans: Bounds, upto: nat, next: nat)
    requires Tiled(spans, upto) && upto < next
    ensures Tiled(spans + [(upto, next)], next)
  {
  }

  /** The spans built so far: they cover [0, upto) and each of them is as it should be. */
  ghost predicate Built(cfg: SplitConfig, mask: Option<seq<bool>>, start: nat, total: nat, spans: Bounds, upto: nat)
    requires cfg.Ok()
  {
    Tiled(spans, upto) && forall j | 0 <= j < |spans| :: SpanOk(cfg, mask, start, total, spans[j])
  }

  lemma BuiltExtend(cfg: SplitConfig, mask: Option<seq<bool>>, start: nat, total: nat, spans: Bounds, upto: nat,
                    next: nat)
    requires cfg.Ok() && Built(cfg, mask, start, total, spans, upto) && upto < next
    requires SpanOk(cfg, mask, start, total, (upto, next))
    ensures Built(cfg, mask, start, total, spans + [(upto, next)], next)
  {
    TiledExtend(spans, upto, next);
    hide SpanOk, Tiled;
  }

  /** Appends [from, end) to the spans, cut into pieces of `maxSpan` except for the last. */
  method CutRun(cfg: SplitConfig, ghost mask: Option<seq<bool>>, ghost start: nat, ghost total: nat, spans: Bounds,
                from: nat, end: nat)
    returns (r: Bounds)
    requires cfg.Ok() && from < end <= total && Built(cfg, mask, start, total, spans, from)
    requires forall i | from <= i < end - 1 :: !IsBreak(cfg, mask, start, i)
    requires IsBreak(cfg, mask, start, end - 1)
    ensures Built(cfg, mask, start, total, r, end) && spans <= r && r[|r| - 1].1 == end && |r| > 0
  {
    hide IsBreak, Built;
    assert HasBreak(cfg, mask, start, total);
    r := spans;
    var at := from;
    while end - at > cfg.maxSpan
      invariant from <= at < end && spans <= r && Built(cfg, mask, start, total, r, at)
      decreases end - at
    {
      BuiltExtend(cfg, mask, start, total, r, at, at + cfg.maxSpan);
      r := r + [(at, at + cfg.maxSpan)];
      at := at + cfg.maxSpan;
    }
    BuiltExtend(cfg, mask, start, total, r, at, end);
    r := r + [(at, end)];
  }

  /** No break at all: fixed spans over the whole chunk. */
  method FixedSpans(cfg: SplitConfig, ghost mask: Option<seq<bool>>, ghost start: nat, total: nat)
    returns (spans: Bounds)
    requires cfg.Ok() && !HasBreak(cfg, mask, start, total)
    ensures Built(cfg, mask, start, total, spans, total)
  {
    spans := [];
    var a := 0;
    assert Built(cfg, mask, start, total, spans, a);
    hide IsBreak, Built;
    while a < total
      invariant 0 <= a <= total && Built(cfg, mask, start, total, spans, a)
      decreases total - a
    {
      var b := Min(a + cfg.fallback, total);
      BuiltExtend(cfg, mask, start, total, spans, a, b);
      spans := spans + [(a, b)];
      a := b;
    }
  }

  lemma EndsExtend(cfg: SplitConfig, mask: Option<seq<bool>>, start: nat, older: Bounds, spans: Bounds, from: nat,
                   b: nat)
    requires cfg.Ok() && EndsAtBreaks(cfg, mask, start, older, from) && older <= spans
    requires from <= b && forall i | from <= i < b :: !IsBreak(cfg, mask, start, i)
    requires spans != [] && spans[|spans| - 1].1 == b + 1
    ensures EndsAtBreaks(cfg, mask, start, spans, b + 1)
  {
    hide IsBreak;
    forall i | 0 <= i < b + 1 && IsBreak(cfg, mask, start, i)
      ensures exists j :: 0 <= j < |spans| && spans[j].1 == i + 1
    {
      if i < from {
        var j :| 0 <= j < |older| && older[j].1 == i + 1;
        assert spans[j] == older[j];
      }
    }
  }

  lemma NothingBuilt(cfg: SplitConfig, mask: Option<seq<bool>>, start: nat, total: nat)
    requires cfg.Ok()
    ensures Built(cfg, mask, start, total, [], 0) && EndsAtBreaks(cfg, mask, start, [], 0)
  {
  }

  lemma GapIsQuiet(cfg: SplitConfig, mask: Option<seq<bool>>, start: nat, total: nat, breaks: seq<nat>, k: nat,
                   from: nat)
    requires cfg.Ok() && Increasing(breaks) && Below(breaks, total) && k < |breaks|
    requires forall i | 0 <= i < total :: i in breaks <==> IsBreak(cfg, mask, start, i)
    requires from == if k == 0 then 0 else breaks[k - 1] + 1
    ensures from <= breaks[k] && IsBreak(cfg, mask, start, breaks[k])
    ensures forall i | from <= i < breaks[k] :: !IsBreak(cfg, mask, start, i)
  {
    hide IsBreak;
    assert breaks[k] in breaks;
    NoneBetween(breaks, k);
  }

  /** The spans up to the last break, run by run. */
  method CutAtBreaks(cfg: SplitConfig, ghost mask: Option<seq<bool>>, ghost start: nat, ghost total: nat,
                     breaks: seq<nat>)
    returns (spans: Bounds)
    requires cfg.Ok() && Increasing(breaks) && Below(breaks, total) && breaks != []
    requires forall i | 0 <= i < total :: i in breaks <==> IsBreak(cfg, mask, start, i)
    ensures spans != [] && Built(cfg, mask, start, total, spans, breaks[|breaks| - 1] + 1)
    ensures EndsAtBreaks(cfg, mask, start, spans, breaks[|breaks| - 1] + 1)
  {
    hide IsBreak, Built, EndsAtBreaks;
    spans := [];
    var from, k := 0, 0;
    NothingBuilt(cfg, mask, start, total);
    while k < |breaks|
      invariant 0 <= k <= |breaks| && from == (if k == 0 then 0 else breaks[k - 1] + 1)
      invariant Built(cfg, mask, start, total, spans, from) && (k > 0 ==> spans != [])
      invariant EndsAtBreaks(cfg, mask, start, spans, from)
    {
      var b := breaks[k];
      GapIsQuiet(cfg, mask, start, total, breaks, k, from);
      hide Increasing;
      ghost var older := spans;
      spans := CutRun(cfg, mask, start, total, spans, from, b + 1);
      EndsExtend(cfg, mask, start, older, spans, from, b);
      from := b + 1;
      k := k + 1;
    }
  }

  /** `_split_spans`: the spans of a chunk and how many of its tokens they cover. */
  method SplitSpans(cfg: SplitConfig, mask: Option<seq<bool>>, start: nat, total: nat)
    returns (spans: Bounds, routed: nat)
    requires cfg.Ok()
    ensures SplitOk(cfg, mask, start, total, spans, routed)
    ensures total > 0 ==> spans != [] && routed > 0
  {
    hide IsBreak, SpanOk;
    var breaks := FindBreaks(cfg, mask, start, total);
    if breaks == [] {
      assert !HasBreak(cfg, mask, start, total);
      routed := total;
      spans := FixedSpans(cfg, mask, start, total);
    } else {
      routed := breaks[|breaks| - 1] + 1;
      spans := CutAtBreaks(cfg, mask, start, total, breaks);
      RoutedToLast(cfg, mask, start, total, breaks);
      hide Increasing, Below;
    }
  }

  lemma RoutedToLast(cfg: SplitConfig, mask: Option<seq<bool>>, start: nat, total: nat, breaks: seq<nat>)
    requires cfg.Ok() && Increasing(breaks) && Below(breaks, total) && breaks != []
    requires forall i | 0 <= i < total :: i in breaks <==> IsBreak(cfg, mask, start, i)
    ensures RoutedPart(cfg, mask, start, total, breaks[|breaks| - 1] + 1)
  {
    hide IsBreak;
    BeyondLast(breaks);
    assert breaks[|breaks| - 1] in breaks;
  }

  lemma NoneBetween(s: seq<nat>, k: nat)
    requires Increasing(s) && k < |s|
    ensures forall i: nat | (if k == 0 then 0 else s[k - 1] + 1) <= i < s[k] :: i !in s
  {
  }

  lemma BeyondLast(s: seq<nat>)
    requires Increasing(s) && s != []
    ensures forall i: nat | i > s[|s| - 1] :: i !in s
  {
  }

  // ---- the breaks determine the split -------------------------------------

  lemma {:induction false} TiledBelow(spans: Bounds, n: nat, j: nat)
    requires Tiled(spans, n) && j < |spans|
    ensures spans[j].1 <= n
    decreases |spans| - j
  {
    if j == |spans| - 1 {
    } else {
      TiledBelow(spans, n, j + 1);
    }
  }

  /** Two spans of a chunk that start together end together. */
  lemma SameEnd(cfg: SplitConfig, mask: Option<seq<bool>>, start: nat, total: nat, s: (nat, nat), t: (nat, nat))
    requires cfg.Ok() && SpanOk(cfg, mask, start, total, s) && SpanOk(cfg, mask, start, total, t)
    requires s.0 == t.0 && s.1 <= total && t.1 <= total
    ensures s == t
  {
    hide IsBreak, HasBreak;
  }

  lemma SameRouted(cfg: SplitConfig, mask: Option<seq<bool>>, start: nat, total: nat, a: nat, b: nat)
    requires cfg.Ok() && RoutedPart(cfg, mask, start, total, a) && RoutedPart(cfg, mask, start, total, b)
    ensures a == b
  {
    hide IsBreak, HasBreak;
  }

  lemma {:induction false} SamePrefix(cfg: SplitConfig, mask: Option<seq<bool>>, start: nat, total: nat, a: Bounds,
                                      b: Bounds, upto: nat, j: nat)
    requires cfg.Ok() && upto <= total && Built(cfg, mask, start, total, a, upto)
    requires Built(cfg, mask, start, total, b, upto) && j < |a| && j < |b|
    ensures a[j] == b[j]
  {
    hide SpanOk;
    TiledBelow(a, upto, j);
    TiledBelow(b, upto, j);
    if j == 0 {
    } else {
      SamePrefix(cfg, mask, start, total, a, b, upto, j - 1);
    }
    SameEnd(cfg, mask, start, total, a[j], b[j]);
  }

  lemma NotShorter(a: Bounds, b: Bounds, upto: nat)
    requires Tiled(a, upto) && Tiled(b, upto) && forall j | 0 <= j < |a| && j < |b| :: a[j] == b[j]
    ensures |a| >= |b|
  {
    if |a| < |b| {
      TiledBelow(b, upto, |a|);
    }
  }

  /** The mask, the position and the length of a chunk leave no choice: there is one split. */
  lemma SplitIsUnique(cfg: SplitConfig, mask: Option<seq<bool>>, start: nat, total: nat, a: Bounds, r: nat, b: Bounds,
                      q: nat)
    requires cfg.Ok() && SplitOk(cfg, mask, start, total, a, r) && SplitOk(cfg, mask, start, total, b, q)
    ensures a == b && r == q
  {
    SameRouted(cfg, mask, start, total, r, q);
    hide RoutedPart, EndsAtBreaks, SpanOk;
    forall j | 0 <= j < |a| && j < |b| ensures a[j] == b[j] {
      RoutedWithin(cfg, mask, start, total, r);
      SamePrefix(cfg, mask, start, total, a, b, r, j);
    }
    NotShorter(a, b, r);
    NotShorter(b, a, r);
  }

  lemma RoutedWithin(cfg: SplitConfig, mask: Option<seq<bool>>, start: nat, total: nat, routed: nat)
    requires cfg.Ok() && RoutedPart(cfg, mask, start, total, routed)
    ensures routed <= total
  {
  }

  /** The span that starts behind a break, or at the beginning. */
  lemma SpanFrom(cfg: SplitConfig, mask: Option<seq<bool>>, start: nat, spans: Bounds, routed: nat, from: nat)
    returns (j: nat)
    requires cfg.Ok() && Tiled(spans, routed) && EndsAtBreaks(cfg, mask, start, spans, routed) && from < routed
    requires from == 0 || IsBreak(cfg, mask, start, from - 1)
    ensures j < |spans| && spans[j].0 == from && spans[j].1 <= routed
  {
    hide IsBreak;
    if from == 0 {
      j := 0;
    } else {
      var before :| 0 <= before < |spans| && spans[before].1 == from - 1 + 1;
      j := before + 1;
    }
    TiledBelow(spans, routed, j);
  }

  /**
   * What lies between two neighbouring breaks, or before the first break, is one span exactly when it is
   * no longer than `maxSpan`.
   */
  lemma SentenceStaysWhole(cfg: SplitConfig, mask: Option<seq<bool>>, start: nat, total: nat, spans: Bounds,
                           routed: nat, from: nat, last: nat)
    requires cfg.Ok() && SplitOk(cfg, mask, start, total, spans, routed)
    requires from <= last < total && IsBreak(cfg, mask, start, last)
    requires (from == 0 || IsBreak(cfg, mask, start, from - 1))
      && forall i | from <= i < last :: !IsBreak(cfg, mask, start, i)
    ensures last + 1 - from <= cfg.maxSpan <==> (from, last + 1) in spans
  {
    hide IsBreak, Tiled, EndsAtBreaks;
    assert last < routed && HasBreak(cfg, mask, start, total);
    var j := SpanFrom(cfg, mask, start, spans, routed, from);
    assert SpanOk(cfg, mask, start, total, spans[j]);
    EndsThere(cfg, mask, start, total, spans[j], last);
    if (from, last + 1) in spans {
      var k :| 0 <= k < |spans| && spans[k] == (from, last + 1);
      assert SpanOk(cfg, mask, start, total, spans[k]);
    }
  }

  lemma EndsThere(cfg: SplitConfig, mask: Option<seq<bool>>, start: nat, total: nat, s: (nat, nat), last: nat)
    requires cfg.Ok() && SpanOk(cfg, mask, start, total, s) && s.0 <= last < total && IsBreak(cfg, mask, start, last)
    requires forall i | s.0 <= i < last :: !IsBreak(cfg, mask, start, i)
    ensures last + 1 - s.0 <= cfg.maxSpan ==> s == (s.0, last + 1)
  {
    hide IsBreak;
  }

  // ---- how much can stay behind -------------------------------------------

  lemma NextMultiple(x: nat, n: nat) returns (j: nat)
    requires n >= 1
    ensures x <= j < x + n && (j + 1) % n == 0
  {
    j := x + (n - 1 - x % n);
    assert x == n * (x / n) + x % n;
    assert j + 1 == n * (x / n + 1);
    MultipleOf(n, x / n + 1);
  }

  lemma MultipleOf(n: nat, q: nat)
    requires n >= 1
    ensures n * q % n == 0
  {
    var r, p := n * q % n, n * q / n;
    assert n * q == n * p + r;
    assert n * (q - p) == r;
    AwayFromZero(n, q - p);
  }

  lemma AwayFromZero(n: nat, d: int)
    requires n >= 1
    ensures d >= 1 ==> n * d >= n
    ensures d <= -1 ==> n * d + n <= 0
  {
    if d >= 1 {
      assert n * (d - 1) >= 0;
    } else if d <= -1 {
      assert n * (-d - 1) >= 0;
    }
  }

  /** The mask marks no break at any of the positions [from, to). */
  ghost predicate Quiet(mask: Option<seq<bool>>, from: nat, to: nat) {
    forall p | from <= p < to && mask.Some? && p < |mask.value| :: !mask.value[p]
  }

  /** The part of the chunk past the end of the mask starts here. */
  function MaskEnd(mask: Option<seq<bool>>, start: nat): nat {
    if mask.Some? then Max(0, |mask.value| - start) else 0
  }

  /**
   * What stays pending has no masked break, and past the mask it is shorter than one fallback span;
   * so it is at most `fallback - 1` long unless the last routed token lies inside the mask.
   */
  lemma TailIsQuiet(cfg: SplitConfig, mask: Option<seq<bool>>, start: nat, total: nat, routed: nat)
    requires cfg.Ok() && RoutedPart(cfg, mask, start, total, routed)
    ensures Quiet(mask, start + routed, start + total)
    ensures routed < total ==> total - Max(routed, MaskEnd(mask, start)) < cfg.fallback
  {
    forall p | start + routed <= p < start + total && mask.Some? && p < |mask.value| ensures !mask.value[p] {
      assert !IsBreak(cfg, mask, start, p - start);
    }
    var from := Max(routed, MaskEnd(mask, start));
    if total - from >= cfg.fallback {
      var j := NextMultiple(from, cfg.fallback);
      assert IsBreak(cfg, mask, start, j);
    }
  }

  /**
   * If the first `quiet` tokens have no masked break, the split leaves fewer than `fallback` of the
   * tokens pending or only some of those after the quiet part.
   */
  lemma QuietPrefixIsRouted(cfg: SplitConfig, mask: Option<seq<bool>>, start: nat, total: nat, routed: nat, quiet: nat)
    requires cfg.Ok() && RoutedPart(cfg, mask, start, total, routed) && quiet <= total
    requires Quiet(mask, start, start + quiet)
    ensures total - routed <= Max(cfg.fallback - 1, total - quiet - 1)
  {
    TailIsQuiet(cfg, mask, start, total, routed);
    if routed < total && routed <= quiet {
      assert routed > 0 && IsBreak(cfg, mask, start, routed - 1);
      assert MaskEnd(mask, start) <= routed;
    }
  }
}
