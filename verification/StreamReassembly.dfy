/**
 * Reassembly of a token stream whose events carry either all tokens so far or only the new ones;
 * the reader infers which from the first event that tells.
 */
module StreamReassembly {
  import opened Lists

  type Token = int

  datatype StreamMode = Incremental | Cumulative

  datatype Delta = Delta(ids: seq<Token>, mode: Option<StreamMode>) | Diverged

  /** `_sglang_native_output_delta`. */
  function OutputDelta(current: seq<Token>, event: seq<Token>, completionTokens: Option<int>,
                       mode: Option<StreamMode>): Delta
  {
    if mode == Some(Incremental) then Delta(event, mode)
    else if mode == Some(Cumulative) then
      if current <= event then Delta(event[|current|..], mode) else Diverged
    else if current == [] then Delta(event, None)
    else if completionTokens == Some(|current| + |event|) then Delta(event, Some(Incremental))
    else if completionTokens == Some(|event|) && current <= event then Delta(event[|current|..], Some(Cumulative))
    else if current <= event then Delta(event[|current|..], Some(Cumulative))
    else Delta(event, Some(Incremental))
  }

  /** One event of the stream: its output ids and its count, each of which may be missing. */
  datatype Event = Event(outputIds: Option<seq<Token>>, completionTokens: Option<int>)

  /** `seen` once the ids of some event were taken in. */
  datatype Reader = Reader(output: seq<Token>, mode: Option<StreamMode>, usage: Option<int>, diverged: nat, seen: bool)

  /** A count stays in force until another one arrives. */
  function Usage(before: Option<int>, event: Event): Option<int> {
    if event.completionTokens.Some? then event.completionTokens else before
  }

  function Read(r: Reader, event: Event): Reader {
    var usage := Usage(r.usage, event);
    if event.outputIds.None? then r.(usage := usage)
    else
      match OutputDelta(r.output, event.outputIds.value, usage, r.mode)
      case Diverged => r.(usage := usage, diverged := r.diverged + 1)
      case Delta(ids, mode) => Reader(r.output + ids, mode, usage, r.diverged, true)
  }

  function ReadAll(events: seq<Event>): Reader {
    if events == [] then Reader([], None, None, 0, false)
      else Read(ReadAll(events[..|events| - 1]), events[|events| - 1])
  }

  lemma ReadNext(events: seq<Event>, event: Event)
    ensures ReadAll(events + [event]) == Read(ReadAll(events), event)
  {
    assert (events + [event])[..|events|] == events;
  }

  /** The stream loop: it updates the output, the mode and the count event by event. */
  class StreamReader {
    var outputTokenIds: seq<Token>
    var exactCount: nat
    var mode: Option<StreamMode>
    var usage: Option<int>
    var diverged: nat
    var idsSeen: bool
    ghost var events: seq<Event>

    ghost predicate Valid()
      reads this
    {
      Reader(outputTokenIds, mode, usage, diverged, idsSeen) == ReadAll(events) && exactCount == |outputTokenIds|
    }

    constructor ()
      ensures Valid() && events == []
    {
      outputTokenIds, exactCount, mode, usage, diverged, idsSeen, events := [], 0, None, None, 0, false, [];
    }

    method OnEvent(event: Event)
      requires Valid()
      modifies this
      ensures Valid() && events == old(events) + [event]
      ensures old(mode).Some? ==> mode == old(mode)
      ensures old(outputTokenIds) <= outputTokenIds
    {
      ReadNext(events, event);
      hide ReadAll;
      events := events + [event];
      if event.completionTokens.Some? {
        usage := event.completionTokens;
      }
      if event.outputIds.Some? {
        assert mode.Some? ==> mode.value.Incremental? || mode.value.Cumulative?;
        match OutputDelta(outputTokenIds, event.outputIds.value, usage, mode)
        case Diverged =>
          diverged := diverged + 1;
        case Delta(ids, inferred) =>
          mode, idsSeen := inferred, true;
          if ids != [] {
            outputTokenIds, exactCount := outputTokenIds + ids, exactCount + |ids|;
          } else {
            assert outputTokenIds + ids == outputTokenIds;
          }
      }
    }

    /** The closing check: once ids were seen, the count in force must be the number of tokens. */
    method Accepted() returns (ok: bool)
      requires Valid()
      ensures ok <==> Clean(ReadAll(events))
      ensures ok <==>
        && (forall i | 0 <= i < |events| :: !RejectedAt(events, i))
        && (idsSeen ==> usage == None || usage == Some(|outputTokenIds|))
    {
      NoneRejected(events);
      ok := diverged == 0 && (!idsSeen || usage == None || usage == Some(|outputTokenIds|));
    }
  }

  /** Event `i` found a reader in cumulative mode whose output its ids do not extend. */
  ghost predicate RejectedAt(events: seq<Event>, i: nat)
    requires i < |events|
  {
    var before := ReadAll(events[..i]);
    before.mode == Some(Cumulative) && events[i].outputIds.Some? && !(before.output <= events[i].outputIds.value)
  }

  predicate Clean(r: Reader) {
    r.diverged == 0 && (r.seen ==> r.usage == None || r.usage == Some(|r.output|))
  }

  /** The reader has counted no divergence exactly when it has rejected no event. */
  lemma {:induction false} NoneRejected(events: seq<Event>)
    ensures ReadAll(events).diverged == 0 <==> forall i | 0 <= i < |events| :: !RejectedAt(events, i)
  {
    if events == [] {
    } else {
      var n := |events| - 1;
      NoneRejected(events[..n]);
      OneRejected(ReadAll(events[..n]), events[n]);
      hide ReadAll, Read;
      assert forall i | 0 <= i < n :: RejectedAt(events[..n], i) <==> RejectedAt(events, i) by {
        assert forall i | 0 <= i < n :: events[..n][..i] == events[..i];
      }
      if ReadAll(events[..n]).diverged == 0 && forall i | 0 <= i < |events| :: !RejectedAt(events, i) {
        assert !RejectedAt(events, n);
      }
    }
  }

  lemma OneRejected(r: Reader, event: Event)
    ensures Read(r, event).diverged
         == r.diverged + if r.mode == Some(Cumulative) && event.outputIds.Some? && !(r.output <= event.outputIds.value)
                         then 1 else 0
  {
  }

  // ---- what the mode means ------------------------------------------------

  /** Once set the mode never changes, and a cumulative stream only ever extends what is there. */
  lemma ModeIsFinal(events: seq<Event>, event: Event)
    requires ReadAll(events).mode.Some?
    ensures ReadAll(events + [event]).mode == ReadAll(events).mode
    ensures ReadAll(events).mode.value.Cumulative? && event.outputIds.Some? ==>
      if ReadAll(events).output <= event.outputIds.value
      then ReadAll(events + [event]).output == event.outputIds.value
        && ReadAll(events + [event]).diverged == ReadAll(events).diverged
      else ReadAll(events + [event]).output == ReadAll(events).output
           && ReadAll(events + [event]).diverged == ReadAll(events).diverged + 1
  {
    ReadNext(events, event);
    DecidedReader(ReadAll(events), event);
    hide ReadAll, Read;
  }

  lemma DecidedReader(r: Reader, event: Event)
    requires r.mode.Some?
    ensures Read(r, event).mode == r.mode
    ensures r.mode.value.Cumulative? && event.outputIds.Some? ==>
      if r.output <= event.outputIds.value
      then Read(r, event).output == event.outputIds.value && Read(r, event).diverged == r.diverged
      else Read(r, event).output == r.output && Read(r, event).diverged == r.diverged + 1
  {
    assert r.mode.value.Incremental? || r.mode.value.Cumulative?;
    if event.outputIds.Some? && r.output <= event.outputIds.value {
      assert r.output + event.outputIds.value[|r.output|..] == event.outputIds.value;
    }
  }

  // ---- servers that keep to one kind --------------------------------------

  /** The server produced `pieces` one after another; `counts` are the counts it attached, if any. */
  function ServerEvents(kind: StreamMode, pieces: seq<seq<Token>>, counts: seq<Option<int>>): (r: seq<Event>)
    requires |counts| == |pieces|
    ensures |r| == |pieces|
  {
    seq(|pieces|, i requires 0 <= i < |pieces| =>
      Event(Some(if kind.Incremental? then pieces[i] else Flatten(pieces[..i + 1])), counts[i]))
  }

  lemma ServerPrefix(kind: StreamMode, pieces: seq<seq<Token>>, counts: seq<Option<int>>)
    requires |counts| == |pieces| > 0
    ensures var n := |pieces| - 1;
            && ServerEvents(kind, pieces, counts)[..n] == ServerEvents(kind, pieces[..n], counts[..n])
            && ServerEvents(kind, pieces, counts)[n]
               == Event(Some(if kind.Incremental? then pieces[n] else Flatten(pieces)), counts[n])
  {
    hide Flatten;
    var n := |pieces| - 1;
    assert pieces[..n + 1] == pieces;
    var all, most := ServerEvents(kind, pieces, counts)[..n], ServerEvents(kind, pieces[..n], counts[..n]);
    forall i | 0 <= i < n ensures all[i] == most[i] {
      TakeTake(pieces, n, i + 1);
    }
    assert all == most;
  }

  lemma TakeTake<T>(xs: seq<T>, n: nat, k: nat)
    requires k <= n <= |xs|
    ensures xs[..n][..k] == xs[..k]
  {
  }

  /** Event `d` decides: it is the first to arrive when some output is there. */
  ghost predicate Decides(pieces: seq<seq<Token>>, d: nat) {
    0 < d < |pieces| && Flatten(pieces[..d]) != [] && Flatten(pieces[..d - 1]) == []
  }

  /** The count in force at the last of these events. */
  function InForce(counts: seq<Option<int>>): Option<int> {
    if counts == [] then None
    else if counts[|counts| - 1].Some? then counts[|counts| - 1]
    else InForce(counts[..|counts| - 1])
  }

  /** What the reader can see at the deciding event that makes it choose this kind. */
  ghost predicate Chooses(kind: StreamMode, pieces: seq<seq<Token>>, counts: seq<Option<int>>, d: nat)
    requires |counts| == |pieces| && d < |pieces|
  {
    RightChoice(kind, Flatten(pieces[..d]), pieces[d], InForce(counts[..d + 1]))
  }

  lemma {:induction false} UsageIsInForce(kind: StreamMode, pieces: seq<seq<Token>>, counts: seq<Option<int>>)
    requires |counts| == |pieces|
    ensures ReadAll(ServerEvents(kind, pieces, counts)).usage == InForce(counts)
  {
    if pieces == [] {
    } else {
      var n := |pieces| - 1;
      ServerPrefix(kind, pieces, counts);
      UsageIsInForce(kind, pieces[..n], counts[..n]);
    }
  }

  /** The first ids of a stream are always taken in. */
  lemma {:induction false} IdsAreSeen(kind: StreamMode, pieces: seq<seq<Token>>, counts: seq<Option<int>>)
    requires |counts| == |pieces| > 0
    ensures ReadAll(ServerEvents(kind, pieces, counts)).seen
  {
    var n := |pieces| - 1;
    ServerPrefix(kind, pieces, counts);
    if n == 0 {
    } else {
      IdsAreSeen(kind, pieces[..n], counts[..n]);
    }
  }

  /** Up to the deciding event every reading is the same, and right. */
  lemma {:induction false} UndecidedIsRight(kind: StreamMode, pieces: seq<seq<Token>>, counts: seq<Option<int>>)
    requires |counts| == |pieces| && (pieces != [] ==> Flatten(pieces[..|pieces| - 1]) == [])
    ensures var r := ReadAll(ServerEvents(kind, pieces, counts));
            r.output == Flatten(pieces) && r.mode == None && r.diverged == 0
  {
    if pieces == [] {
    } else {
      var n := |pieces| - 1;
      if n > 0 {
        assert pieces[..n][..n - 1] == pieces[..n - 1];
        assert Flatten(pieces[..n]) == Flatten(pieces[..n - 1]) + pieces[n - 1] by {
          assert pieces[..n][n - 1] == pieces[n - 1];
        }
      }
      ServerPrefix(kind, pieces, counts);
      UndecidedIsRight(kind, pieces[..n], counts[..n]);
      assert Flatten(pieces) == [] + pieces[n] == pieces[n];
    }
  }

  /** After the deciding event the output is right, or its length is wrong for good. */
  ghost predicate Judged(kind: StreamMode, right: bool, r: Reader, truth: seq<Token>) {
    if right then r.mode == Some(kind) && r.output == truth && r.diverged == 0
    else if kind.Incremental? then r.mode == Some(Cumulative) && |r.output| < |truth|
    else r.mode == Some(Incremental) && |r.output| > |truth|
  }

  /** What a reader with output but no mode makes of the next piece. */
  ghost predicate RightChoice(kind: StreamMode, current: seq<Token>, piece: seq<Token>, usage: Option<int>) {
    if kind.Incremental? then usage == Some(|current| + |piece|) || !(current <= piece)
    else usage != Some(|current| + |current + piece|)
  }

  lemma Deciding(kind: StreamMode, r: Reader, piece: seq<Token>, count: Option<int>)
    requires r.output != [] && r.mode == None && r.diverged == 0
    ensures var event := Event(Some(if kind.Incremental? then piece else r.output + piece), count);
            Judged(kind, RightChoice(kind, r.output, piece, Usage(r.usage, event)), Read(r, event), r.output + piece)
  {
    assert (r.output + piece)[|r.output|..] == piece;
    if kind.Incremental? && r.output <= piece {
      assert r.output + piece[|r.output|..] == piece;
    }
  }

  lemma DecidingEvent(kind: StreamMode, pieces: seq<seq<Token>>, counts: seq<Option<int>>, d: nat)
    requires |counts| == |pieces| == d + 1 && Decides(pieces, d)
    ensures Judged(kind, Chooses(kind, pieces, counts, d), ReadAll(ServerEvents(kind, pieces, counts)), Flatten(pieces))
  {
    hide Read, Judged, ServerEvents;
    ServerPrefix(kind, pieces, counts);
    assert pieces[..d][..d - 1] == pieces[..d - 1] && pieces[..d + 1] == pieces && counts[..d + 1] == counts;
    UndecidedIsRight(kind, pieces[..d], counts[..d]);
    UsageIsInForce(kind, pieces[..d], counts[..d]);
    Deciding(kind, ReadAll(ServerEvents(kind, pieces[..d], counts[..d])), pieces[d], counts[d]);
  }

  lemma LaterEvent(kind: StreamMode, right: bool, r: Reader, truth: seq<Token>, piece: seq<Token>, count: Option<int>)
    requires Judged(kind, right, r, truth) && truth != []
    ensures Judged(kind, right, Read(r, Event(Some(if kind.Incremental? then piece else truth + piece), count)),
                   truth + piece)
  {
    assert truth + piece == truth + (truth + piece)[|truth|..];
  }

  lemma SameDecision(kind: StreamMode, pieces: seq<seq<Token>>, counts: seq<Option<int>>, d: nat, n: nat)
    requires |counts| == |pieces| && Decides(pieces, d) && d < n <= |pieces|
    ensures Decides(pieces[..n], d) && (Chooses(kind, pieces[..n], counts[..n], d) <==>
                                        Chooses(kind, pieces, counts, d))
  {
    hide Flatten, RightChoice, InForce;
    TakeTake(pieces, n, d);
    TakeTake(pieces, n, d - 1);
    TakeTake(counts, n, d + 1);
    assert pieces[..n][d] == pieces[d];
  }

  lemma {:induction false} DecidedOnce(kind: StreamMode, pieces: seq<seq<Token>>, counts: seq<Option<int>>, d: nat)
    requires |counts| == |pieces| && Decides(pieces, d)
    ensures Judged(kind, Chooses(kind, pieces, counts, d), ReadAll(ServerEvents(kind, pieces, counts)), Flatten(pieces))
    ensures Flatten(pieces) != []
  {
    hide Read, Judged, ServerEvents, RightChoice, InForce;
    var n := |pieces| - 1;
    if n == d {
      DecidingEvent(kind, pieces, counts, d);
    } else {
      SameDecision(kind, pieces, counts, d, n);
      hide Chooses, Decides;
      DecidedOnce(kind, pieces[..n], counts[..n], d);
      ServerPrefix(kind, pieces, counts);
      LaterEvent(kind, Chooses(kind, pieces, counts, d), ReadAll(ServerEvents(kind, pieces[..n], counts[..n])),
                 Flatten(pieces[..n]), pieces[n], counts[n]);
    }
  }

  /**
   * For every server that keeps to one kind, whatever counts it attaches, drops or lets go stale:
   * the stream is reconstructed exactly when the deciding event makes the reader choose that kind.
   */
  lemma ReconstructsIff(kind: StreamMode, pieces: seq<seq<Token>>, counts: seq<Option<int>>, d: nat)
    requires |counts| == |pieces| && Decides(pieces, d)
    ensures ReadAll(ServerEvents(kind, pieces, counts)).output == Flatten(pieces) <==> Chooses(kind, pieces, counts, d)
    ensures ReadAll(ServerEvents(kind, pieces, counts)).mode == Some(kind) <==> Chooses(kind, pieces, counts, d)
  {
    DecidedOnce(kind, pieces, counts, d);
  }

  lemma {:induction false} DecidingIndex(pieces: seq<seq<Token>>) returns (d: nat)
    requires pieces != [] && Flatten(pieces[..|pieces| - 1]) != []
    ensures Decides(pieces, d)
  {
    var n := |pieces| - 1;
    if n > 0 && Flatten(pieces[..n - 1]) != [] {
      assert pieces[..n][..n - 1] == pieces[..n - 1];
      d := DecidingIndex(pieces[..n]);
      assert pieces[..n][..d] == pieces[..d] && pieces[..n][..d - 1] == pieces[..d - 1];
    } else {
      d := n;
    }
  }

  /** Every event carries the right count. */
  ghost predicate Counted(pieces: seq<seq<Token>>, counts: seq<Option<int>>) {
    |counts| == |pieces| && forall i | 0 <= i < |pieces| :: counts[i] == Some(|Flatten(pieces[..i + 1])|)
  }

  lemma CountedChooses(kind: StreamMode, pieces: seq<seq<Token>>, counts: seq<Option<int>>, d: nat)
    requires Counted(pieces, counts) && Decides(pieces, d)
    ensures Chooses(kind, pieces, counts, d)
  {
    assert counts[..d + 1][|counts[..d + 1]| - 1] == counts[d];
    assert pieces[..d + 1][..d] == pieces[..d] && pieces[..d + 1][d] == pieces[d];
    assert Flatten(pieces[..d + 1]) == Flatten(pieces[..d]) + pieces[d];
  }

  /** With a right count on every event, both kinds of stream come out exactly, and no event is rejected. */
  lemma CountedStreamsAreExact(kind: StreamMode, pieces: seq<seq<Token>>, counts: seq<Option<int>>)
    requires Counted(pieces, counts)
    ensures var r := ReadAll(ServerEvents(kind, pieces, counts));
            r.output == Flatten(pieces) && r.diverged == 0 && (r.mode == None || r.mode == Some(kind))
  {
    if pieces == [] || Flatten(pieces[..|pieces| - 1]) == [] {
      UndecidedIsRight(kind, pieces, counts);
    } else {
      var d := DecidingIndex(pieces);
      CountedChooses(kind, pieces, counts, d);
      DecidedOnce(kind, pieces, counts, d);
    }
  }

  /**
   * A wrong reading never passes: if the last count in force is right, the closing check accepts only the exact output.
   */
  lemma AcceptedMeansExact(kind: StreamMode, pieces: seq<seq<Token>>, counts: seq<Option<int>>)
    requires |counts| == |pieces| && InForce(counts) == Some(|Flatten(pieces)|)
    ensures Clean(ReadAll(ServerEvents(kind, pieces, counts))) <==>
      ReadAll(ServerEvents(kind, pieces, counts)).output == Flatten(pieces)
  {
    UsageIsInForce(kind, pieces, counts);
    IdsAreSeen(kind, pieces, counts);
    if pieces == [] || Flatten(pieces[..|pieces| - 1]) == [] {
      UndecidedIsRight(kind, pieces, counts);
    } else {
      var d := DecidingIndex(pieces);
      DecidedOnce(kind, pieces, counts, d);
    }
  }

  /** Without counts a repeating incremental stream is misread: [7] then [7] comes out as one token. */
  lemma UncountedRepeatIsLost()
    ensures ReadAll(ServerEvents(Incremental, [[7], [7]], [None, None])).output != Flatten([[7], [7]])
  {
    var pieces: seq<seq<Token>> := [[7], [7]];
    assert pieces[..1] == [[7]] && pieces[..0] == [];
    assert pieces[..1][..0] == [];
    var counts: seq<Option<int>> := [None, None];
    assert counts[..1] == [None] && counts[..2] == counts && counts[..1][..0] == [];
    ReconstructsIff(Incremental, pieces, counts, 1);
  }
}
