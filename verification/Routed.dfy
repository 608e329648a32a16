/**
 * What the two routed layers share: slots of evicted tokens, how they materialise, and the
 * layout that names the origin of every materialised entry.
 */
module Routed {
  import opened Lists
  import opened Tokens
  import opened Eviction

  /** A slot as attention sees it: how many tokens it got, their mean, and the tokens kept exactly. */
  datatype Slot = Slot(count: nat, mean: KV, reps: seq<KV>, repPos: seq<nat>)

  /** Where a materialised entry comes from. */
  datatype Entry =
    | SinkAt(pos: nat)
    | SlotMean(slot: nat)
    | SlotRep(slot: nat, pos: nat)
    | PendingAt(pos: nat)
    | RingAt(pos: nat)
  {
    /** Entries that hold one token exactly name its absolute position. */
    predicate Exact() { !SlotMean? }

    function Position(): nat
      requires Exact()
    {
      match this
      case SinkAt(p) => p
      case SlotRep(_, p) => p
      case PendingAt(p) => p
      case RingAt(p) => p
      case SlotMean(_) => 0
    }
  }

  function EmptySlot(dim: nat): Slot { Slot(0, Zero(dim), [], []) }

  /** The `n` tokens after the sink: the ones that have been routed. */
  function Gone<T>(h: seq<T>, sink: nat, n: nat): seq<T> {
    if sink + n <= |h| then h[sink..sink + n] else []
  }

  /** The tokens routed to slot `s`. */
  ghost function Members(h: seq<KV>, sink: nat, route: seq<nat>, s: nat): seq<KV>
    requires |Gone(h, sink, |route|)| == |route|
  {
    Pick(Gone(h, sink, |route|), route, s)
  }

  ghost predicate RepsOk(sink: nat, slot: Slot, s: nat, h: seq<KV>, route: seq<nat>) {
    && |slot.reps| == |slot.repPos|
    && Increasing(slot.repPos)
    && forall i | 0 <= i < |slot.repPos| ::
         var p := slot.repPos[i];
         sink <= p < sink + |route| && p < |h| && route[p - sink] == s && slot.reps[i] == h[p]
  }

  /** The slot counts, averages and keeps exactly the tokens routed to it. */
  ghost predicate SlotOk(dim: nat, sink: nat, slot: Slot, s: nat, h: seq<KV>, route: seq<nat>) {
    && |Gone(h, sink, |route|)| == |route|
    && slot.count == |Members(h, sink, route, s)|
    && IsMean(dim, slot.mean, Members(h, sink, route, s))
    && RepsOk(sink, slot, s, h, route)
  }

  /** Every reachable state of a routed layer. */
  ghost predicate BankOk(dim: nat, sink: nat, window: nat, w: Window<KV>, slots: seq<Slot>, h: seq<KV>, route: seq<nat>)
  {
    && Holds(sink, window, w, |route|, h)
    && Below(route, |slots|)
    && forall s | 0 <= s < |slots| :: SlotOk(dim, sink, slots[s], s, h, route)
  }

  // ---- how slots change ---------------------------------------------------

  lemma SlotSurvives(dim: nat, sink: nat, slot: Slot, s: nat, h: seq<KV>, route: seq<nat>, chunk: seq<KV>)
    requires SlotOk(dim, sink, slot, s, h, route)
    ensures SlotOk(dim, sink, slot, s, h + chunk, route)
  {
    assert Gone(h + chunk, sink, |route|) == Gone(h, sink, |route|);
  }

  lemma GoneGrows<T>(h: seq<T>, sink: nat, n: nat, cut: seq<T>)
    requires sink + n + |cut| <= |h| && cut == h[sink + n..][..|cut|]
    ensures Gone(h, sink, n + |cut|) == Gone(h, sink, n) + cut
  {
    assert h[sink + n..][..|cut|] == h[sink + n..sink + n + |cut|];
    Adjacent(h, sink, sink + n, sink + n + |cut|);
  }

  lemma MembersGrow(h: seq<KV>, sink: nat, route: seq<nat>, cut: seq<KV>, assign: seq<nat>, s: nat)
    requires |Gone(h, sink, |route|)| == |route|
    requires sink + |route| + |cut| <= |h| && cut == h[sink + |route|..][..|cut|] && |assign| == |cut|
    ensures |Gone(h, sink, |route + assign|)| == |route + assign|
    ensures Members(h, sink, route + assign, s) == Members(h, sink, route, s) + Pick(cut, assign, s)
  {
    hide Gone, Pick;
    GoneGrows(h, sink, |route|, cut);
    assert |route + assign| == |route| + |cut|;
    PickConcat(Gone(h, sink, |route|), route, cut, assign, s);
  }

  lemma RepsSurvive(sink: nat, slot: Slot, s: nat, h: seq<KV>, route: seq<nat>, assign: seq<nat>)
    requires RepsOk(sink, slot, s, h, route)
    ensures RepsOk(sink, slot, s, h, route + assign)
  {
    hide Increasing;
    forall i | 0 <= i < |slot.repPos|
      ensures var p := slot.repPos[i];
              p < sink + |route + assign| && (route + assign)[p - sink] == s
    {
      assert route[slot.repPos[i] - sink] == s;
    }
  }

  /** A slot that gets no token of the chunk stays right. */
  lemma UntouchedSlot(dim: nat, sink: nat, slot: Slot, s: nat, h: seq<KV>, route: seq<nat>, cut: seq<KV>,
                      assign: seq<nat>)
    requires SlotOk(dim, sink, slot, s, h, route)
    requires sink + |route| + |cut| <= |h| && cut == h[sink + |route|..][..|cut|] && |assign| == |cut|
    requires Pick(cut, assign, s) == []
    ensures SlotOk(dim, sink, slot, s, h, route + assign)
  {
    MembersGrow(h, sink, route, cut, assign, s);
    RepsSurvive(sink, slot, s, h, route, assign);
    hide Members, RepsOk, IsMean, Pick, Gone;
    assert Members(h, sink, route + assign, s) == Members(h, sink, route, s);
  }

  /** Count and mean after the chunk's tokens for slot `s` joined. */
  lemma TouchedSlot(dim: nat, sink: nat, slot: Slot, s: nat, h: seq<KV>, route: seq<nat>, cut: seq<KV>,
                    assign: seq<nat>, next: Slot)
    requires SlotOk(dim, sink, slot, s, h, route)
    requires sink + |route| + |cut| <= |h| && cut == h[sink + |route|..][..|cut|] && |assign| == |cut|
    requires next.count == slot.count + |Pick(cut, assign, s)|
    requires IsMean(dim, next.mean, Members(h, sink, route, s) + Pick(cut, assign, s))
    requires RepsOk(sink, next, s, h, route + assign)
    ensures SlotOk(dim, sink, next, s, h, route + assign)
  {
    MembersGrow(h, sink, route, cut, assign, s);
  }

  // ---- conservation -------------------------------------------------------

  ghost function PickSizes<T>(xs: seq<T>, labels: seq<nat>, m: nat): nat
    requires |xs| == |labels|
  {
    if m == 0 then 0 else PickSizes(xs, labels, m - 1) + |Pick(xs, labels, m - 1)|
  }

  lemma {:induction false} OneMorePicked<T>(xs: seq<T>, labels: seq<nat>, m: nat)
    requires |xs| == |labels| && xs != []
    ensures var n := |xs| - 1;
            PickSizes(xs, labels, m) == PickSizes(xs[..n], labels[..n], m) + if labels[n] < m then 1 else 0
  {
    if m == 0 {
    } else {
      OneMorePicked(xs, labels, m - 1);
    }
  }

  lemma {:induction false} PicksPartition<T>(xs: seq<T>, labels: seq<nat>, m: nat)
    requires |xs| == |labels| && Below(labels, m)
    ensures PickSizes(xs, labels, m) == |xs|
  {
    if xs == [] {
      NothingPicked(xs, labels, m);
    } else {
      OneMorePicked(xs, labels, m);
      PicksPartition(xs[..|xs| - 1], labels[..|xs| - 1], m);
    }
  }

  lemma {:induction false} NothingPicked<T>(xs: seq<T>, labels: seq<nat>, m: nat)
    requires xs == [] && labels == []
    ensures PickSizes(xs, labels, m) == 0
  {
    if m == 0 {
    } else {
      NothingPicked(xs, labels, m - 1);
    }
  }

  function Counted(slots: seq<Slot>): nat {
    if slots == [] then 0 else Counted(slots[..|slots| - 1]) + slots[|slots| - 1].count
  }

  lemma {:induction false} CountsAreSizes(dim: nat, sink: nat, slots: seq<Slot>, h: seq<KV>, route: seq<nat>)
    requires |Gone(h, sink, |route|)| == |route|
    requires forall s | 0 <= s < |slots| :: slots[s].count == |Members(h, sink, route, s)|
    ensures Counted(slots) == PickSizes(Gone(h, sink, |route|), route, |slots|)
  {
    if slots == [] {
    } else {
      CountsAreSizes(dim, sink, slots[..|slots| - 1], h, route);
    }
  }

  /**
   * No token is lost or counted twice: the buffers and the slot counts add up to the tokens seen,
   * and count times mean of a slot is the exact sum of the tokens routed to it.
   */
  lemma Conservation(dim: nat, sink: nat, window: nat, w: Window<KV>, slots: seq<Slot>, h: seq<KV>, route: seq<nat>)
    requires BankOk(dim, sink, window, w, slots, h, route)
    ensures |w.sink| + Counted(slots) + |w.pend| + |w.ring| == |h|
    ensures Counted(slots) == |route|
    ensures forall s, side, c: nat | 0 <= s < |slots| && c < dim ::
              Times(Coord(slots[s].mean, side, c), slots[s].count) == Sum(Members(h, sink, route, s), side, c)
  {
    RoutedFit(dim, sink, window, w, slots, h, route);
    forall s | 0 <= s < |slots| ensures slots[s].count == |Members(h, sink, route, s)| {
      assert SlotOk(dim, sink, slots[s], s, h, route);
    }
    CountsAreSizes(dim, sink, slots, h, route);
    PicksPartition(Gone(h, sink, |route|), route, |slots|);
    forall s, side, c: nat | 0 <= s < |slots| && c < dim
      ensures Times(Coord(slots[s].mean, side, c), slots[s].count) == Sum(Members(h, sink, route, s), side, c)
    {
      assert SlotOk(dim, sink, slots[s], s, h, route);
    }
  }

  lemma RoutedFit(dim: nat, sink: nat, window: nat, w: Window<KV>, slots: seq<Slot>, h: seq<KV>, route: seq<nat>)
    requires BankOk(dim, sink, window, w, slots, h, route)
    ensures |Gone(h, sink, |route|)| == |route|
    ensures route != [] ==> |w.sink| == sink
  {
  }

  // ---- materialisation ----------------------------------------------------

  /** The slot part of the cache: mean and kept tokens of every slot that ever got a token. */
  function SlotKeys(slots: seq<Slot>): seq<KV> {
    if slots == [] then []
    else
      var s := slots[|slots| - 1];
      SlotKeys(slots[..|slots| - 1]) + if s.count > 0 then [s.mean] + s.reps else []
  }

  function SlotEntries(slots: seq<Slot>): seq<Entry> {
    if slots == [] then []
    else
      var n := |slots| - 1;
      SlotEntries(slots[..n]) + if slots[n].count > 0 then [SlotMean(n)] + RepEntries(n, slots[n].repPos) else []
  }

  function RepEntries(s: nat, pos: seq<nat>): (r: seq<Entry>)
    ensures |r| == |pos| && forall i | 0 <= i < |pos| :: r[i] == SlotRep(s, pos[i])
  {
    seq(|pos|, i requires 0 <= i < |pos| => SlotRep(s, pos[i]))
  }

  function Materialized(w: Window<KV>, slots: seq<Slot>): seq<KV> {
    w.sink + SlotKeys(slots) + w.pend + w.ring
  }

  function SinkEntries(n: nat): (r: seq<Entry>)
    ensures |r| == n && forall i | 0 <= i < n :: r[i] == SinkAt(i)
  {
    seq(n, i requires 0 <= i => SinkAt(i))
  }

  function PendingEntries(start: nat, n: nat): (r: seq<Entry>)
    ensures |r| == n && forall i | 0 <= i < n :: r[i] == PendingAt(start + i)
  {
    seq(n, i requires 0 <= i => PendingAt(start + i))
  }

  function RingEntries(start: nat, n: nat): (r: seq<Entry>)
    ensures |r| == n && forall i | 0 <= i < n :: r[i] == RingAt(start + i)
  {
    seq(n, i requires 0 <= i => RingAt(start + i))
  }

  /** `slot_layout`: computed from counts, positions and lengths only, never from keys. */
  function Layout(sinkCap: nat, sinkLen: nat, pendLen: nat, ringLen: nat, evicted: nat, seen: nat,
                  slots: seq<Slot>): seq<Entry>
    requires ringLen <= seen
  {
    SinkEntries(sinkLen) + SlotEntries(slots) + PendingEntries(sinkCap + evicted, pendLen)
      + RingEntries(seen - ringLen, ringLen)
  }

  /** Entry and stored key belong together. */
  ghost predicate Matches(dim: nat, sink: nat, e: Entry, key: KV, h: seq<KV>, route: seq<nat>)
    requires |Gone(h, sink, |route|)| == |route|
  {
    match e
    case SlotMean(s) => Members(h, sink, route, s) != [] && IsMean(dim, key, Members(h, sink, route, s))
    case SlotRep(s, p) => p < |h| && key == h[p] && sink <= p < sink + |route| && route[p - sink] == s
    case SinkAt(p) => p < |h| && key == h[p] && p < sink
    case PendingAt(p) => p < |h| && key == h[p] && sink + |route| <= p
    case RingAt(p) => p < |h| && key == h[p] && sink + |route| <= p
  }

  ghost predicate AllMatch(dim: nat, sink: nat, es: seq<Entry>, ks: seq<KV>, h: seq<KV>, route: seq<nat>)
    requires |Gone(h, sink, |route|)| == |route|
  {
    |es| == |ks| && forall i | 0 <= i < |es| :: Matches(dim, sink, es[i], ks[i], h, route)
  }

  lemma AllMatchConcat(dim: nat, sink: nat, es: seq<Entry>, ks: seq<KV>, fs: seq<Entry>, ls: seq<KV>, h: seq<KV>,
                       route: seq<nat>)
    requires |Gone(h, sink, |route|)| == |route|
    requires AllMatch(dim, sink, es, ks, h, route) && AllMatch(dim, sink, fs, ls, h, route)
    ensures AllMatch(dim, sink, es + fs, ks + ls, h, route)
  {
    hide Matches;
    forall i | 0 <= i < |es + fs| ensures Matches(dim, sink, (es + fs)[i], (ks + ls)[i], h, route) {
      if i >= |es| {
        assert (es + fs)[i] == fs[i - |es|] && (ks + ls)[i] == ls[i - |es|];
      }
    }
  }

  lemma SlotMatch(dim: nat, sink: nat, slot: Slot, n: nat, h: seq<KV>, route: seq<nat>)
    requires SlotOk(dim, sink, slot, n, h, route) && slot.count > 0
    ensures AllMatch(dim, sink, [SlotMean(n)] + RepEntries(n, slot.repPos), [slot.mean] + slot.reps, h, route)
  {
    hide IsMean, Members, Increasing;
    assert AllMatch(dim, sink, [SlotMean(n)], [slot.mean], h, route);
    assert AllMatch(dim, sink, RepEntries(n, slot.repPos), slot.reps, h, route);
    AllMatchConcat(dim, sink, [SlotMean(n)], [slot.mean], RepEntries(n, slot.repPos), slot.reps, h, route);
  }

  lemma {:induction false} SlotEntriesMatch(dim: nat, sink: nat, slots: seq<Slot>, h: seq<KV>, route: seq<nat>)
    requires |Gone(h, sink, |route|)| == |route|
    requires forall s | 0 <= s < |slots| :: SlotOk(dim, sink, slots[s], s, h, route)
    ensures AllMatch(dim, sink, SlotEntries(slots), SlotKeys(slots), h, route)
  {
    if slots == [] {
    } else {
      var n := |slots| - 1;
      SlotEntriesMatch(dim, sink, slots[..n], h, route);
      assert SlotOk(dim, sink, slots[n], n, h, route);
      hide AllMatch, SlotOk;
      if slots[n].count > 0 {
        SlotMatch(dim, sink, slots[n], n, h, route);
        AllMatchConcat(dim, sink, SlotEntries(slots[..n]), SlotKeys(slots[..n]),
                       [SlotMean(n)] + RepEntries(n, slots[n].repPos), [slots[n].mean] + slots[n].reps, h, route);
      } else {
        assert SlotEntries(slots) == SlotEntries(slots[..n]) && SlotKeys(slots) == SlotKeys(slots[..n]);
      }
    }
  }

  /**
   * The layout indexes the materialised cache: same length, and every entry tells what the stored
   * key is -- the token at that absolute position, or the mean of exactly the tokens of that slot.
   */
  lemma LayoutIndexes(dim: nat, sink: nat, window: nat, w: Window<KV>, slots: seq<Slot>, h: seq<KV>, route: seq<nat>)
    requires BankOk(dim, sink, window, w, slots, h, route)
    ensures |Gone(h, sink, |route|)| == |route|
    ensures var layout := Layout(sink, |w.sink|, |w.pend|, |w.ring|, |route|, |h|, slots);
            var keys := Materialized(w, slots);
            AllMatch(dim, sink, layout, keys, h, route)
  {
    hide AllMatch, SlotOk, Holds, SlotEntries, SlotKeys, Gone;
    RoutedFit(dim, sink, window, w, slots, h, route);
    SlotEntriesMatch(dim, sink, slots, h, route);
    RingWithin(sink, window, w, |route|, h);
    BuffersMatch(dim, sink, window, w, h, route);
    var layout0 := SinkEntries(|w.sink|) + SlotEntries(slots);
    AllMatchConcat(dim, sink, SinkEntries(|w.sink|), w.sink, SlotEntries(slots), SlotKeys(slots), h, route);
    AllMatchConcat(dim, sink, layout0, w.sink + SlotKeys(slots), PendingEntries(sink + |route|, |w.pend|), w.pend, h,
                   route);
    AllMatchConcat(dim, sink, layout0 + PendingEntries(sink + |route|, |w.pend|), w.sink + SlotKeys(slots) + w.pend,
                   RingEntries(|h| - |w.ring|, |w.ring|), w.ring, h, route);
  }

  lemma RingWithin<T>(sink: nat, window: nat, w: Window<T>, gone: nat, h: seq<T>)
    requires Holds(sink, window, w, gone, h)
    ensures |w.ring| <= |h|
  {
  }

  lemma BuffersMatch(dim: nat, sink: nat, window: nat, w: Window<KV>, h: seq<KV>, route: seq<nat>)
    requires Holds(sink, window, w, |route|, h) && |Gone(h, sink, |route|)| == |route|
    ensures AllMatch(dim, sink, SinkEntries(|w.sink|), w.sink, h, route)
    ensures AllMatch(dim, sink, PendingEntries(sink + |route|, |w.pend|), w.pend, h, route)
    ensures AllMatch(dim, sink, RingEntries(|h| - |w.ring|, |w.ring|), w.ring, h, route)
  {
    hide IsMean, Members;
    assert w.pend != [] || w.ring != [] ==> |w.sink| == sink;
    assert forall i | 0 <= i < |w.pend| :: w.pend[i] == h[|w.sink| + |route| + i];
    assert forall i | 0 <= i < |w.ring| :: w.ring[i] == h[|h| - |w.ring| + i];
    assert |w.ring| > 0 ==> sink + |route| <= |h| - |w.ring|;
  }

  /** Slot entries name slots below `m`, each kept token under the slot it was routed to, none twice. */
  ghost predicate Separate(es: seq<Entry>, m: nat, sink: nat, route: seq<nat>) {
    && (forall i | 0 <= i < |es| :: es[i].SlotMean? || es[i].SlotRep?)
    && (forall i | 0 <= i < |es| && es[i].SlotRep? ::
          es[i].slot < m && sink <= es[i].pos < sink + |route| && route[es[i].pos - sink] == es[i].slot)
    && (forall i, j | 0 <= i < j < |es| && es[i].SlotRep? && es[j].SlotRep? && es[i].slot == es[j].slot ::
          es[i].pos < es[j].pos)
  }

  lemma SeparateConcat(es: seq<Entry>, n: nat, fs: seq<Entry>, sink: nat, route: seq<nat>)
    requires Separate(es, n, sink, route) && Separate(fs, n + 1, sink, route)
    requires forall i | 0 <= i < |fs| && fs[i].SlotRep? :: fs[i].slot == n
    ensures Separate(es + fs, n + 1, sink, route)
  {
  }

  lemma {:induction false} SlotPositionsDiffer(dim: nat, sink: nat, slots: seq<Slot>, h: seq<KV>, route: seq<nat>)
    requires forall s | 0 <= s < |slots| :: SlotOk(dim, sink, slots[s], s, h, route)
    ensures Separate(SlotEntries(slots), |slots|, sink, route)
  {
    if slots == [] {
    } else {
      var n := |slots| - 1;
      SlotPositionsDiffer(dim, sink, slots[..n], h, route);
      assert SlotOk(dim, sink, slots[n], n, h, route);
      SlotSeparate(dim, sink, slots[n], n, h, route);
      SeparateGrows(SlotEntries(slots[..n]), n, sink, route);
      hide SlotOk, Separate;
      if slots[n].count > 0 {
        SeparateConcat(SlotEntries(slots[..n]), n, [SlotMean(n)] + RepEntries(n, slots[n].repPos), sink, route);
      } else {
        assert SlotEntries(slots) == SlotEntries(slots[..n]);
      }
    }
  }

  lemma SeparateGrows(es: seq<Entry>, n: nat, sink: nat, route: seq<nat>)
    requires Separate(es, n, sink, route)
    ensures Separate(es, n + 1, sink, route)
  {
  }

  lemma SlotSeparate(dim: nat, sink: nat, slot: Slot, n: nat, h: seq<KV>, route: seq<nat>)
    requires SlotOk(dim, sink, slot, n, h, route)
    ensures Separate([SlotMean(n)] + RepEntries(n, slot.repPos), n + 1, sink, route)
    ensures forall i | 0 <= i < |[SlotMean(n)] + RepEntries(n, slot.repPos)| ::
              var e := ([SlotMean(n)] + RepEntries(n, slot.repPos))[i];
              e.SlotRep? ==> e.slot == n
  {
    hide IsMean, Members;
  }

  /** The entry at index `i`, part by part. */
  lemma LayoutAt(sinkCap: nat, sinkLen: nat, pendLen: nat, ringLen: nat, evicted: nat, seen: nat, slots: seq<Slot>,
                 i: nat)
    requires ringLen <= seen && i < |Layout(sinkCap, sinkLen, pendLen, ringLen, evicted, seen, slots)|
    ensures var es := SlotEntries(slots);
            && |Layout(sinkCap, sinkLen, pendLen, ringLen, evicted, seen, slots)| == sinkLen + |es| + pendLen + ringLen
            && Layout(sinkCap, sinkLen, pendLen, ringLen, evicted, seen, slots)[i]
              == if i < sinkLen then SinkAt(i)
                 else if i < sinkLen + |es| then es[i - sinkLen]
                 else if i < sinkLen + |es| + pendLen then PendingAt(sinkCap + evicted + (i - sinkLen - |es|))
                 else RingAt(seen - ringLen + (i - sinkLen - |es| - pendLen))
  {
  }

  /** No token appears twice: exact positions are distinct, and increase within each slot. */
  lemma ExactPositionsDistinct(dim: nat, sink: nat, window: nat, w: Window<KV>, slots: seq<Slot>, h: seq<KV>,
                               route: seq<nat>, i: nat, j: nat)
    requires BankOk(dim, sink, window, w, slots, h, route)
    requires i < j < |Layout(sink, |w.sink|, |w.pend|, |w.ring|, |route|, |h|, slots)|
    ensures var layout := Layout(sink, |w.sink|, |w.pend|, |w.ring|, |route|, |h|, slots);
            layout[i].Exact() && layout[j].Exact() ==>
              && layout[i].Position() != layout[j].Position()
              && (layout[i].SlotRep? && layout[j].SlotRep? && layout[i].slot == layout[j].slot ==>
                    layout[i].pos < layout[j].pos)
  {
    hide SlotOk, SlotEntries, Below, Layout, Separate;
    SlotPositionsDiffer(dim, sink, slots, h, route);
    LayoutAt(sink, |w.sink|, |w.pend|, |w.ring|, |route|, |h|, slots, i);
    LayoutAt(sink, |w.sink|, |w.pend|, |w.ring|, |route|, |h|, slots, j);
    BufferPlaces(sink, window, w, |route|, h);
    EntriesDiffer(SlotEntries(slots), |slots|, sink, route, |w.sink|, |w.pend|, |h| - |w.ring|, i, j);
  }

  /** Where the buffers sit in the history, one behind the other. */
  lemma BufferPlaces(sink: nat, window: nat, w: Window<KV>, n: nat, h: seq<KV>)
    requires Holds(sink, window, w, n, h)
    ensures |w.sink| <= sink && |w.ring| <= |h| && (w.pend != [] || w.ring != [] ==> |w.sink| == sink)
    ensures w.ring != [] ==> sink + n + |w.pend| <= |h| - |w.ring|
  {
  }

  /** The entry at index `i` of a layout whose slot part is `es`. */
  function EntryAt(es: seq<Entry>, sink: nat, sinkLen: nat, pendLen: nat, evicted: nat, ring: int, i: nat): Entry
    requires ring >= 0
  {
    if i < sinkLen then SinkAt(i)
    else if i < sinkLen + |es| then es[i - sinkLen]
    else if i < sinkLen + |es| + pendLen then PendingAt(sink + evicted + (i - sinkLen - |es|))
    else RingAt(ring + (i - sinkLen - |es| - pendLen))
  }

  lemma EntriesDiffer(es: seq<Entry>, m: nat, sink: nat, route: seq<nat>, sinkLen: nat, pendLen: nat, ring: int, i: nat,
                      j: nat)
    requires Separate(es, m, sink, route) && i < j && sinkLen <= sink && ring >= 0
    requires j >= sinkLen + |es| ==> sinkLen == sink
    requires j >= sinkLen + |es| + pendLen ==> sink + |route| + pendLen <= ring
    ensures var x, y := EntryAt(es, sink, sinkLen, pendLen, |route|, ring, i),
      EntryAt(es, sink, sinkLen, pendLen, |route|, ring, j);
            x.Exact() && y.Exact() ==>
              && x.Position() != y.Position()
              && (x.SlotRep? && y.SlotRep? && x.slot == y.slot ==> x.pos < y.pos)
  {
  }

  // ---- the append law -----------------------------------------------------

  lemma {:induction false} NoSlotKeys(dim: nat, sink: nat, slots: seq<Slot>, h: seq<KV>)
    requires forall s | 0 <= s < |slots| :: slots[s].count == 0
    ensures SlotKeys(slots) == []
  {
    if slots == [] {
    } else {
      NoSlotKeys(dim, sink, slots[..|slots| - 1], h);
    }
  }

  lemma NothingRouted(dim: nat, sink: nat, window: nat, w: Window<KV>, slots: seq<Slot>, h: seq<KV>)
    requires BankOk(dim, sink, window, w, slots, h, [])
    ensures SlotKeys(slots) == []
  {
    forall s | 0 <= s < |slots| ensures slots[s].count == 0 {
      assert SlotOk(dim, sink, slots[s], s, h, []);
    }
    NoSlotKeys(dim, sink, slots, h);
  }

  /** An update that does not fold appends its chunk to the materialised cache and changes nothing else. */
  lemma FoldFreeUpdateAppends(dim: nat, sink: nat, window: nat, w: Window<KV>, slots: seq<Slot>, h: seq<KV>,
                              route: seq<nat>, chunk: seq<KV>)
    requires BankOk(dim, sink, window, w, slots, h, route)
    ensures |w.sink| <= sink
    ensures Materialized(Admit(sink, window, w, chunk), slots) == Materialized(w, slots) + chunk
  {
    AdmitAppends(sink, window, w, |route|, h, chunk);
    var a := Admit(sink, window, w, chunk);
    if |w.sink| < sink {
      assert route == [];
      NothingRouted(dim, sink, window, w, slots, h);
      hide Admit, Holds, SlotKeys, BankOk;
      Regroup(a.sink, SlotKeys(slots), a.pend, a.ring);
      Regroup(w.sink, SlotKeys(slots), w.pend, w.ring);
    } else {
      hide Admit, Holds, SlotKeys, BankOk;
      Regroup(a.sink, SlotKeys(slots), a.pend, a.ring);
      Regroup(w.sink, SlotKeys(slots), w.pend, w.ring);
      Associative(w.sink + SlotKeys(slots), w.pend + w.ring, chunk);
    }
  }

  lemma Regroup<T>(a: seq<T>, b: seq<T>, c: seq<T>, d: seq<T>)
    ensures a + b + c + d == a + b + (c + d)
    ensures b == [] ==> a + b + c + d == a + (c + d)
    ensures b == [] && c + d == [] ==> a + b + c + d == a
  {
  }

  /** Until the first fold the cache is the full, unchanged history. */
  lemma ExactBeforeFirstFold(dim: nat, sink: nat, window: nat, w: Window<KV>, slots: seq<Slot>, h: seq<KV>)
    requires BankOk(dim, sink, window, w, slots, h, [])
    ensures Materialized(w, slots) == h
  {
    NothingRouted(dim, sink, window, w, slots, h);
    Adjacent(h, |w.sink|, |h| - |w.ring|, |h|);
    Adjacent(h, 0, |w.sink|, |h|);
    assert w.sink + SlotKeys(slots) + w.pend + w.ring == w.sink + (w.pend + w.ring);
  }

  // ---- the assignment log -------------------------------------------------

  /** One routed chunk: where it starts and the slot of each of its tokens. */
  datatype Assigned = Assigned(start: nat, labels: seq<nat>)

  /** The slot of every evicted token, oldest first. */
  function Labels(chunks: seq<Assigned>): seq<nat> {
    if chunks == [] then [] else Labels(chunks[..|chunks| - 1]) + chunks[|chunks| - 1].labels
  }

  /** Every logged chunk starts where the one before it ended. */
  ghost predicate ChunksOk(sink: nat, chunks: seq<Assigned>) {
    chunks != [] ==>
      var n := |chunks| - 1;
      ChunksOk(sink, chunks[..n]) && chunks[n].start == sink + |Labels(chunks[..n])|
  }

  lemma ChunksGrow(sink: nat, chunks: seq<Assigned>, labels: seq<nat>)
    requires ChunksOk(sink, chunks)
    ensures ChunksOk(sink, chunks + [Assigned(sink + |Labels(chunks)|, labels)])
    ensures Labels(chunks + [Assigned(sink + |Labels(chunks)|, labels)]) == Labels(chunks) + labels
  {
    ChunkJoins(sink, chunks, Assigned(sink + |Labels(chunks)|, labels));
  }

  lemma ChunkJoins(sink: nat, chunks: seq<Assigned>, last: Assigned)
    requires ChunksOk(sink, chunks) && last.start == sink + |Labels(chunks)|
    ensures ChunksOk(sink, chunks + [last]) && Labels(chunks + [last]) == Labels(chunks) + last.labels
  {
    assert (chunks + [last])[..|chunks|] == chunks;
  }

  /** Where the labels of logged chunk `i` sit among all labels. */
  lemma {:induction false} LabelsAt(sink: nat, chunks: seq<Assigned>, i: nat)
    requires ChunksOk(sink, chunks) && i < |chunks|
    ensures chunks[i].start == sink + |Labels(chunks[..i])|
    ensures Labels(chunks[..i + 1]) == Labels(chunks[..i]) + chunks[i].labels
    ensures Labels(chunks[..i + 1]) <= Labels(chunks)
    decreases |chunks|
  {
    var n := |chunks| - 1;
    if i == n {
      assert chunks[..i + 1] == chunks;
    } else {
      LabelsAt(sink, chunks[..n], i);
      assert chunks[..n][..i] == chunks[..i] && chunks[..n][..i + 1] == chunks[..i + 1];
    }
  }

  /** Searches the log for the slot an absolute position was routed to. */
  method FindAssignment(sink: nat, chunks: seq<Assigned>, pos: nat) returns (slot: Option<nat>)
    requires ChunksOk(sink, chunks)
    ensures slot == if sink <= pos < sink + |Labels(chunks)| then Some(Labels(chunks)[pos - sink]) else None
  {
    var i := 0;
    assert chunks[..|chunks|] == chunks;
    while i < |chunks|
      invariant 0 <= i <= |chunks|
      invariant !(sink <= pos < sink + |Labels(chunks[..i])|)
    {
      var c := chunks[i];
      LabelsAt(sink, chunks, i);
      if c.start <= pos < c.start + |c.labels| {
        return Some(c.labels[pos - c.start]);
      }
      i := i + 1;
    }
    slot := None;
  }
}
