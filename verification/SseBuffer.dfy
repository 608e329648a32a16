/**
 * _SSEEventBuffer: an incremental parser for server-sent events, fed byte chunks as they arrive.
 * Where the network cuts the stream must not matter, and parsing must undo printing.
 */
module SseBuffer {
  import opened Bytes
  import opened Lists

  const LF: byte := 10
  const CR: byte := 13
  const SPACE: byte := 32
  const DATA: seq<byte> := [100, 97, 116, 97, 58]

  /** What decoding, stripping and reading the JSON of one event gives: a function of its bytes. */
  datatype Parsed<+E> = Event(value: E) | Bad(reason: string)

  predicate IsSpace(b: byte) { b == SPACE || 9 <= b <= 13 }

  function StripCr(line: seq<byte>): seq<byte> {
    if line != [] && line[|line| - 1] == CR then line[..|line| - 1] else line
  }

  function Payload(line: seq<byte>): seq<byte>
    requires DATA <= line
  {
    var data := line[|DATA|..];
    if data != [] && data[0] == SPACE then data[1..] else data
  }

  /** The lines of one event, with a line feed between them. */
  function Join(lines: seq<seq<byte>>): seq<byte> {
    if lines == [] then [] else if |lines| == 1 then lines[0]
      else Join(lines[..|lines| - 1]) + [LF] + lines[|lines| - 1]
  }

  /** Index of the first line feed, or -1. */
  function FindLf(s: seq<byte>): (k: int)
    ensures -1 <= k < |s|
    ensures k == -1 ==> LF !in s
    ensures k >= 0 ==> s[k] == LF && LF !in s[..k]
  {
    if s == [] then -1
    else if s[0] == LF then 0
    else
      var k := FindLf(s[1..]);
      if k < 0 then -1 else assert s[..k + 1] == [s[0]] + s[1..][..k]; k + 1
  }

  /** The result of parsing: events, what is left of line and event, and the error that stopped it. */
  datatype Outcome<+E> = Outcome(events: seq<E>, partial: seq<byte>, lines: seq<seq<byte>>, error: Option<string>)

  function Prepend<E>(events: seq<E>, o: Outcome<E>): Outcome<E> { o.(events := events + o.events) }

  /** What one complete line does: nothing, one more data line, an event, or an error. */
  function OnLine<E>(parse: seq<byte> -> Parsed<E>, raw: seq<byte>, lines: seq<seq<byte>>,
                     rest: seq<byte>): (o: Outcome<E>)
    ensures o.partial == rest
  {
    var line := StripCr(raw);
    if line != [] then Outcome([], rest, if DATA <= line then lines + [Payload(line)] else lines, None)
    else if lines == [] then Outcome([], rest, [], None)
    else Dispatch(parse, lines, rest)
  }

  /** The data lines become one event. */
  function Dispatch<E>(parse: seq<byte> -> Parsed<E>, lines: seq<seq<byte>>, rest: seq<byte>): (o: Outcome<E>)
    ensures o.partial == rest
  {
    match parse(Join(lines))
    case Event(e) => Outcome([e], rest, [], None)
    case Bad(reason) => Outcome([], rest, [], Some(reason))
  }

  /** Parses every complete line of the buffered bytes, up to the first error. */
  function Drain<E>(parse: seq<byte> -> Parsed<E>, bytes: seq<byte>, lines: seq<seq<byte>>): Outcome<E>
    decreases |bytes|, 1
  {
    var k := FindLf(bytes);
    if k < 0 then Outcome([], bytes, lines, None)
    else Continue(parse, OnLine(parse, bytes[..k], lines, bytes[k + 1..]))
  }

  /** Parsing goes on after a line unless the line raised. */
  function Continue<E>(parse: seq<byte> -> Parsed<E>, o: Outcome<E>): Outcome<E>
    decreases |o.partial| + 1, 0
  {
    if o.error.Some? then o else Prepend(o.events, Drain(parse, o.partial, o.lines))
  }

  /** Parsing goes on with more bytes; after an error they are left unread. */
  function Resume<E>(parse: seq<byte> -> Parsed<E>, o: Outcome<E>, more: seq<byte>): Outcome<E> {
    Continue(parse, o.(partial := o.partial + more))
  }

  lemma {:induction false} FindLfStays(a: seq<byte>, b: seq<byte>)
    ensures FindLf(a) >= 0 ==> FindLf(a + b) == FindLf(a)
  {
    if a != [] && a[0] != LF {
      assert (a + b)[1..] == a[1..] + b;
      FindLfStays(a[1..], b);
    }
  }

  lemma DrainLine<E>(parse: seq<byte> -> Parsed<E>, bytes: seq<byte>, k: nat, lines: seq<seq<byte>>)
    requires FindLf(bytes) == k
    ensures Drain(parse, bytes, lines) == Continue(parse, OnLine(parse, bytes[..k], lines, bytes[k + 1..]))
  {
  }

  lemma DrainNoLine<E>(parse: seq<byte> -> Parsed<E>, bytes: seq<byte>, lines: seq<seq<byte>>)
    requires FindLf(bytes) < 0
    ensures Drain(parse, bytes, lines) == Outcome([], bytes, lines, None)
  {
  }

  lemma PrependTwice<E>(a: seq<E>, b: seq<E>, o: Outcome<E>)
    ensures Prepend(a, Prepend(b, o)) == Prepend(a + b, o)
  {
    assert a + b + o.events == a + (b + o.events);
  }

  lemma ResumePrepended<E>(parse: seq<byte> -> Parsed<E>, events: seq<E>, o: Outcome<E>, more: seq<byte>)
    ensures Resume(parse, Prepend(events, o), more) == Prepend(events, Resume(parse, o, more))
  {
    hide Drain;
    if o.error.None? {
      PrependTwice(events, o.events, Drain(parse, o.partial + more, o.lines));
    }
  }

  lemma OnLineMore<E>(parse: seq<byte> -> Parsed<E>, raw: seq<byte>, lines: seq<seq<byte>>, rest: seq<byte>,
                      more: seq<byte>)
    ensures OnLine(parse, raw, lines, rest + more) == OnLine(parse, raw, lines, rest).(partial := rest + more)
  {
  }

  /** Bytes that arrive later are parsed from where the earlier bytes left off. */
  lemma {:induction false} DrainSplit<E>(parse: seq<byte> -> Parsed<E>, a: seq<byte>, b: seq<byte>,
                                         lines: seq<seq<byte>>)
    ensures Drain(parse, a + b, lines) == Resume(parse, Drain(parse, a, lines), b)
    decreases |a|
  {
    hide Drain, FindLf, OnLine, Prepend;
    var k := FindLf(a);
    if k < 0 {
      DrainNoLine(parse, a, lines);
      PrependNothing(Drain(parse, a + b, lines));
    } else {
      FindLfStays(a, b);
      assert (a + b)[..k] == a[..k] && (a + b)[k + 1..] == a[k + 1..] + b;
      DrainLine(parse, a, k, lines);
      DrainLine(parse, a + b, k, lines);
      var o := OnLine(parse, a[..k], lines, a[k + 1..]);
      OnLineMore(parse, a[..k], lines, a[k + 1..], b);
      if o.error.None? {
        DrainSplit(parse, o.partial, b, o.lines);
        ResumePrepended(parse, o.events, Drain(parse, o.partial, o.lines), b);
      }
    }
  }

  lemma PrependNothing<E>(o: Outcome<E>)
    ensures Prepend([], o) == o
  {
  }

  // ---- feeding chunk by chunk ---------------------------------------------

  class SSEEventBuffer<E> {
    const parse: seq<byte> -> Parsed<E>
    var partialLine: seq<byte>
    var dataLines: seq<seq<byte>>

    constructor (parse: seq<byte> -> Parsed<E>)
      ensures partialLine == [] && dataLines == [] && this.parse == parse
    {
      this.parse, partialLine, dataLines := parse, [], [];
    }

    /** Events completed by this chunk; if a line raises, the events of this call are lost with it. */
    method Feed(chunk: seq<byte>) returns (r: Parsed<seq<E>>)
      modifies this
      ensures var o := Drain(parse, old(partialLine) + chunk, old(dataLines));
              && partialLine == o.partial && dataLines == o.lines
              && r == if o.error.Some? then Bad(o.error.value) else Event(o.events)
    {
      hide Drain, FindLf, OnLine;
      partialLine := partialLine + chunk;
      var events := [];
      ghost var whole := Drain(parse, partialLine, dataLines);
      PrependNothing(whole);
      while true
        invariant whole == Prepend(events, Drain(parse, partialLine, dataLines))
        decreases |partialLine|
      {
        var newline := FindLf(partialLine);
        if newline < 0 {
          DrainNoLine(parse, partialLine, dataLines);
          assert events + [] == events;
          break;
        }
        DrainLine(parse, partialLine, newline, dataLines);
        ghost var o := OnLine(parse, partialLine[..newline], dataLines, partialLine[newline + 1..]);
        PrependTwice(events, o.events, Drain(parse, o.partial, o.lines));
        var event := TakeLine(newline);
        if event.Some? {
          if event.value.Bad? {
            return Bad(event.value.reason);
          }
          events := events + [event.value.value];
        } else {
          assert events + [] == events;
        }
      }
      r := Event(events);
    }

    /** Takes one complete line off the buffer; a blank one may close an event. */
    method TakeLine(newline: nat) returns (event: Option<Parsed<E>>)
      requires newline < |partialLine|
      modifies this
      ensures var o := OnLine(parse, old(partialLine)[..newline], old(dataLines), old(partialLine)[newline + 1..]);
              && partialLine == o.partial && dataLines == o.lines
              && match event
                 case None => o.events == [] && o.error == None
                 case Some(Event(e)) => o.events == [e] && o.error == None
                 case Some(Bad(reason)) => o.events == [] && o.error == Some(reason)
    {
      hide Join;
      event := None;
      var line := StripCr(partialLine[..newline]);
      partialLine := partialLine[newline + 1..];
      if line == [] {
        event := FinishEvent();
      } else if DATA <= line {
        dataLines := dataLines + [Payload(line)];
      }
    }

    method FinishEvent() returns (r: Option<Parsed<E>>)
      modifies this`dataLines
      ensures dataLines == []
      ensures r == if old(dataLines) == [] then None else Some(parse(Join(old(dataLines))))
    {
      if dataLines == [] {
        return None;
      }
      r := Some(parse(Join(dataLines)));
      dataLines := [];
    }

    /** End of stream: complains about an unfinished line or event, and only about those. */
    method Finish() returns (r: Parsed<()>)
      modifies this
      ensures r.Event? <==> Settled(old(partialLine), old(dataLines))
      ensures dataLines == old(dataLines) && partialLine == if r.Event? then [] else old(partialLine)
    {
      if exists i :: 0 <= i < |partialLine| && !IsSpace(partialLine[i]) {
        return Bad("incomplete SSE line at EOF");
      }
      if dataLines != [] {
        return Bad("incomplete SSE event at EOF");
      }
      partialLine := [];
      r := Event(());
    }
  }

  predicate Settled(partial: seq<byte>, lines: seq<seq<byte>>) {
    lines == [] && forall i | 0 <= i < |partial| :: IsSpace(partial[i])
  }

  /** Feeding chunk after chunk, until one raises; `delivered` are the events the caller got. */
  datatype Run<+E> = Run(delivered: seq<E>, partial: seq<byte>, lines: seq<seq<byte>>, error: Option<string>, fed: nat)

  function FeedAll<E>(parse: seq<byte> -> Parsed<E>, chunks: seq<seq<byte>>): (r: Run<E>)
    ensures r.fed <= |chunks|
  {
    if chunks == [] then Run([], [], [], None, 0)
    else
      var before := FeedAll(parse, chunks[..|chunks| - 1]);
      if before.error.Some? then before
      else AfterChunk(parse, before, chunks[|chunks| - 1]).(fed := |chunks|)
  }

  /** One more chunk is fed; when it raises, its own events are lost. */
  function AfterChunk<E>(parse: seq<byte> -> Parsed<E>, before: Run<E>, chunk: seq<byte>): Run<E> {
    var o := Drain(parse, before.partial + chunk, before.lines);
    Run(if o.error.Some? then before.delivered
        else before.delivered + o.events, o.partial, o.lines, o.error, before.fed + 1)
  }

  /**
   * What feeding chunk by chunk has in common with parsing all the bytes at once. Without an error it
   * is everything. With one it is the error, the open event and the bytes left unread (the chunks never
   * fed among them); delivered are exactly the events of the chunks before the one that raised.
   */
  ghost predicate SameAs<E>(parse: seq<byte> -> Parsed<E>, chunks: seq<seq<byte>>, r: Run<E>, o: Outcome<E>) {
    && r.fed <= |chunks| && r.error == o.error && r.lines == o.lines
       && r.partial + Flatten(chunks[r.fed..]) == o.partial
    && if o.error.None? then r.fed == |chunks| && r.delivered == o.events
       else
         && r.fed >= 1
         && var before := Drain(parse, Flatten(chunks[..r.fed - 1]), []);
            before.error.None? && r.delivered == before.events && r.delivered <= o.events
  }

  lemma NextChunk<E>(parse: seq<byte> -> Parsed<E>, chunks: seq<seq<byte>>, before: Run<E>, o: Outcome<E>)
    requires chunks != [] && SameAs(parse, chunks[..|chunks| - 1], before, o) && before.error.None?
    requires o == Drain(parse, Flatten(chunks[..|chunks| - 1]), [])
    ensures SameAs(parse, chunks, AfterChunk(parse, before, chunks[|chunks| - 1]).(fed := |chunks|),
                   Resume(parse, o, chunks[|chunks| - 1]))
  {
    hide Drain;
    var chunk := chunks[|chunks| - 1];
    var next := Drain(parse, before.partial + chunk, before.lines);
    assert chunks[..|chunks| - 1][|chunks| - 1..] == [] && chunks[|chunks|..] == [];
    assert before.partial + [] == before.partial && next.partial + [] == next.partial;
  }

  /** However the stream is cut, feeding the pieces is parsing the whole, up to the first error. */
  lemma {:induction false} CutsAreInvisible<E>(parse: seq<byte> -> Parsed<E>, chunks: seq<seq<byte>>)
    ensures SameAs(parse, chunks, FeedAll(parse, chunks), Drain(parse, Flatten(chunks), []))
  {
    hide Drain, Resume, SameAs, AfterChunk;
    if chunks == [] {
      NothingFed(parse);
    } else {
      var n := |chunks| - 1;
      CutsAreInvisible(parse, chunks[..n]);
      DrainSplit(parse, Flatten(chunks[..n]), chunks[n], []);
      var before, o := FeedAll(parse, chunks[..n]), Drain(parse, Flatten(chunks[..n]), []);
      SameError(parse, chunks[..n], before, o);
      if before.error.Some? {
        LeftUnread(parse, chunks, before, o);
      } else {
        NextChunk(parse, chunks, before, o);
      }
    }
  }

  lemma NothingFed<E>(parse: seq<byte> -> Parsed<E>)
    ensures SameAs(parse, [], FeedAll(parse, []), Drain(parse, Flatten([]), []))
  {
    DrainNoLine(parse, [], []);
  }

  lemma SameError<E>(parse: seq<byte> -> Parsed<E>, chunks: seq<seq<byte>>, r: Run<E>, o: Outcome<E>)
    requires SameAs(parse, chunks, r, o)
    ensures r.error == o.error
  {
  }

  lemma LeftUnread<E>(parse: seq<byte> -> Parsed<E>, chunks: seq<seq<byte>>, r: Run<E>, o: Outcome<E>)
    requires chunks != [] && SameAs(parse, chunks[..|chunks| - 1], r, o) && r.error.Some?
    ensures SameAs(parse, chunks, r, Resume(parse, o, chunks[|chunks| - 1]))
  {
    hide Drain;
    var n := |chunks| - 1;
    var unfed := chunks[r.fed..];
    assert unfed[..|unfed| - 1] == chunks[..n][r.fed..] && unfed[|unfed| - 1] == chunks[n];
    assert r.partial + Flatten(unfed) == r.partial + Flatten(chunks[..n][r.fed..]) + chunks[n];
    assert chunks[..n][..r.fed - 1] == chunks[..r.fed - 1];
  }

  /** An error costs exactly the events that the failing chunk completed before it raised. */
  lemma EventsLostWithAnError<E>(parse: seq<byte> -> Parsed<E>, chunks: seq<seq<byte>>)
    requires FeedAll(parse, chunks).error.Some?
    ensures var r := FeedAll(parse, chunks);
            && r.fed >= 1
            && var before := FeedAll(parse, chunks[..r.fed - 1]);
               var lost := Drain(parse, before.partial + chunks[r.fed - 1], before.lines).events;
               && Drain(parse, Flatten(chunks), []).events == r.delivered + lost
               && (r.delivered == Drain(parse, Flatten(chunks), []).events <==> lost == [])
  {
    hide Drain, FeedAll, AfterChunk, SameAs;
    FailsHere(parse, chunks);
    CutsAreInvisible(parse, chunks);
    var r := FeedAll(parse, chunks);
    var n := r.fed - 1;
    FailingChunk(parse, chunks, n);
    NothingAfterAnError(parse, chunks, n + 1);
  }

  lemma FailingChunk<E>(parse: seq<byte> -> Parsed<E>, chunks: seq<seq<byte>>, n: nat)
    requires n < |chunks| && FeedAll(parse, chunks[..n]).error.None?
    ensures var before := FeedAll(parse, chunks[..n]);
            var o := Drain(parse, Flatten(chunks[..n + 1]), []);
            && o.events == before.delivered + Drain(parse, before.partial + chunks[n], before.lines).events
            && o.error == AfterChunk(parse, before, chunks[n]).error
  {
    hide Drain;
    CutsAreInvisible(parse, chunks[..n]);
    DrainSplit(parse, Flatten(chunks[..n]), chunks[n], []);
    assert chunks[..n][n..] == [];
    var before := FeedAll(parse, chunks[..n]);
    assert before.partial + [] == before.partial;
    assert chunks[..n + 1][..n] == chunks[..n];
  }

  lemma NothingAfterAnError<E>(parse: seq<byte> -> Parsed<E>, chunks: seq<seq<byte>>, n: nat)
    requires n <= |chunks| && Drain(parse, Flatten(chunks[..n]), []).error.Some?
    ensures Drain(parse, Flatten(chunks), []).events == Drain(parse, Flatten(chunks[..n]), []).events
  {
    hide Drain;
    assert chunks == chunks[..n] + chunks[n..];
    FlattenConcat(chunks[..n], chunks[n..]);
    DrainSplit(parse, Flatten(chunks[..n]), Flatten(chunks[n..]), []);
  }

  /** The run ends with the chunk that raised. */
  lemma {:induction false} FailsHere<E>(parse: seq<byte> -> Parsed<E>, chunks: seq<seq<byte>>)
    requires FeedAll(parse, chunks).error.Some?
    ensures var r := FeedAll(parse, chunks);
            && 1 <= r.fed <= |chunks| && FeedAll(parse, chunks[..r.fed - 1]).error.None?
            && r == AfterChunk(parse, FeedAll(parse, chunks[..r.fed - 1]), chunks[r.fed - 1]).(fed := r.fed)
            && r.delivered == FeedAll(parse, chunks[..r.fed - 1]).delivered
  {
    hide AfterChunk;
    var n := |chunks| - 1;
    if FeedAll(parse, chunks[..n]).error.Some? {
      FailsHere(parse, chunks[..n]);
      var k := FeedAll(parse, chunks[..n]).fed;
      assert chunks[..n][..k - 1] == chunks[..k - 1];
    } else {
      FailedKeepsDelivered(parse, FeedAll(parse, chunks[..n]), chunks[n]);
    }
  }

  lemma FailedKeepsDelivered<E>(parse: seq<byte> -> Parsed<E>, before: Run<E>, chunk: seq<byte>)
    ensures var r := AfterChunk(parse, before, chunk); r.error.Some? ==> r.delivered == before.delivered
  {
    hide Drain;
  }

  // ---- which cuts can lose an event ----------------------------------------

  /** The parse that takes every payload as it is. */
  function Keep(payload: seq<byte>): Parsed<seq<byte>> { Event(payload) }

  /** What parsing makes of payloads, up to the first that does not parse. */
  function Values<E>(parse: seq<byte> -> Parsed<E>, payloads: seq<seq<byte>>): seq<E> {
    if payloads == [] then []
    else
      match parse(payloads[0])
      case Event(e) => [e] + Values(parse, payloads[1..])
      case Bad(_) => []
  }

  ghost predicate AllParse<E>(parse: seq<byte> -> Parsed<E>, payloads: seq<seq<byte>>) {
    forall i | 0 <= i < |payloads| :: parse(payloads[i]).Event?
  }

  /** The values are those of the payloads before the first that does not parse. */
  lemma {:induction false} ValuesStop<E>(parse: seq<byte> -> Parsed<E>, payloads: seq<seq<byte>>)
    ensures var n := |Values(parse, payloads)|;
            && n <= |payloads| && AllParse(parse, payloads[..n])
            && (n == |payloads| <==> AllParse(parse, payloads)) && (n < |payloads| ==> parse(payloads[n]).Bad?)
  {
    if payloads == [] {
    } else if parse(payloads[0]).Event? {
      ValuesStop(parse, payloads[1..]);
      var n := |Values(parse, payloads[1..])|;
      AllParseHead(parse, payloads);
      AllParseHead(parse, payloads[..n + 1]);
      assert payloads[..n + 1][1..] == payloads[1..][..n];
    }
  }

  lemma AllParseHead<E>(parse: seq<byte> -> Parsed<E>, payloads: seq<seq<byte>>)
    requires payloads != []
    ensures AllParse(parse, payloads) <==> parse(payloads[0]).Event? && AllParse(parse, payloads[1..])
  {
    if AllParse(parse, payloads) {
      assert forall i | 0 <= i < |payloads| - 1 :: payloads[1..][i] == payloads[i + 1];
    } else {
      assert forall i | 1 <= i < |payloads| :: payloads[i] == payloads[1..][i - 1];
    }
  }

  lemma ParsedLine<E>(parse: seq<byte> -> Parsed<E>, raw: seq<byte>, lines: seq<seq<byte>>, rest: seq<byte>)
    ensures var o, k := OnLine(parse, raw, lines, rest), OnLine(Keep, raw, lines, rest);
            && k.error.None? && |k.events| <= 1 && o.events == Values(parse, k.events)
            && (o.error.None? <==> AllParse(parse, k.events)) && (o.error.None? ==> o.lines == k.lines)
  {
  }

  lemma ValuesConcat<E>(parse: seq<byte> -> Parsed<E>, a: seq<seq<byte>>, b: seq<seq<byte>>)
    requires |a| <= 1
    ensures Values(parse, a + b) == if AllParse(parse, a) then Values(parse, a) + Values(parse, b) else Values(parse, a)
    ensures AllParse(parse, a + b) <==> AllParse(parse, a) && AllParse(parse, b)
  {
    if a == [] {
      assert a + b == b;
    } else {
      assert (a + b)[1..] == b && a[1..] == [];
      AllParseHead(parse, a + b);
      AllParseHead(parse, a);
    }
  }

  /** Which payloads bytes close does not depend on the parse; the parse gives their values up to its first error. */
  lemma {:induction false} DrainIsValues<E>(parse: seq<byte> -> Parsed<E>, bytes: seq<byte>, lines: seq<seq<byte>>)
    ensures var o, k := Drain(parse, bytes, lines), Drain(Keep, bytes, lines);
            && k.error.None? && o.events == Values(parse, k.events)
            && (o.error.None? <==> AllParse(parse, k.events))
            && (o.error.None? ==> o.partial == k.partial && o.lines == k.lines)
    decreases |bytes|
  {
    hide Drain, OnLine, Values, AllParse;
    var n := FindLf(bytes);
    if n < 0 {
      DrainNoLine(parse, bytes, lines);
      DrainNoLine(Keep, bytes, lines);
      NoValues(parse);
    } else {
      var raw, rest := bytes[..n], bytes[n + 1..];
      DrainLine(parse, bytes, n, lines);
      DrainLine(Keep, bytes, n, lines);
      ParsedLine(parse, raw, lines, rest);
      var k := OnLine(Keep, raw, lines, rest);
      DrainIsValues(parse, rest, k.lines);
      ValuesConcat(parse, k.events, Drain(Keep, rest, k.lines).events);
    }
  }

  lemma NoValues<E>(parse: seq<byte> -> Parsed<E>)
    ensures Values(parse, []) == [] && AllParse(parse, [])
  {
  }

  /** The payloads of all events closed before chunk `i`, and those chunk `i` closes. */
  ghost function Earlier(chunks: seq<seq<byte>>, i: nat): seq<seq<byte>>
    requires i <= |chunks|
  {
    Drain(Keep, Flatten(chunks[..i]), []).events
  }

  ghost function Closed(chunks: seq<seq<byte>>, i: nat): seq<seq<byte>>
    requires i < |chunks|
  {
    var before := Drain(Keep, Flatten(chunks[..i]), []);
    Drain(Keep, before.partial + chunks[i], before.lines).events
  }

  /** Chunk `i` closes event `m` after another one, with a payload that has not occurred before. */
  ghost predicate ClosesNewAfterFirst(chunks: seq<seq<byte>>, i: nat, m: nat)
    requires i < |chunks|
  {
    1 <= m < |Closed(chunks, i)| && Closed(chunks, i)[m] !in Earlier(chunks, i) + Closed(chunks, i)[..m]
  }

  /** Some chunk closes an event, after its first, whose payload occurs in no earlier event. */
  ghost predicate CanLose(chunks: seq<seq<byte>>) {
    exists i: nat, m: nat | i < |chunks| :: ClosesNewAfterFirst(chunks, i, m)
  }

  /** Where chunk `n` starts, if nothing raised before. */
  lemma StateBefore<E>(parse: seq<byte> -> Parsed<E>, chunks: seq<seq<byte>>, n: nat)
    requires n < |chunks|
    ensures FeedAll(parse, chunks[..n]).error.None? <==> AllParse(parse, Earlier(chunks, n))
    ensures var before := FeedAll(parse, chunks[..n]);
            before.error.None? ==>
              var o := Drain(parse, before.partial + chunks[n], before.lines);
              && o.events == Values(parse, Closed(chunks, n))
              && (o.error.None? <==> AllParse(parse, Closed(chunks, n)))
  {
    hide Drain, Values, AllParse, FeedAll;
    var before, k := FeedAll(parse, chunks[..n]), Drain(Keep, Flatten(chunks[..n]), []);
    CutsAreInvisible(parse, chunks[..n]);
    DrainIsValues(parse, Flatten(chunks[..n]), []);
    if before.error.None? {
      assert chunks[..n][n..] == [] && before.partial + [] == before.partial;
      DrainIsValues(parse, k.partial + chunks[n], k.lines);
    }
  }

  /** An event is lost only where a chunk closes a new payload after another event. */
  lemma LossNeedsRoom<E>(parse: seq<byte> -> Parsed<E>, chunks: seq<seq<byte>>)
    requires FeedAll(parse, chunks).delivered != Drain(parse, Flatten(chunks), []).events
    ensures CanLose(chunks)
  {
    hide Drain, FeedAll, AfterChunk, Earlier, Closed, Values;
    CutsAreInvisible(parse, chunks);
    EventsLostWithAnError(parse, chunks);
    FailsHere(parse, chunks);
    var n := FeedAll(parse, chunks).fed - 1;
    StateBefore(parse, chunks, n);
    ChunkError(parse, FeedAll(parse, chunks[..n]), chunks[n]);
    ValuesStop(parse, Closed(chunks, n));
    var m := |Values(parse, Closed(chunks, n))|;
    assert ClosesNewAfterFirst(chunks, n, m);
  }

  lemma ChunkError<E>(parse: seq<byte> -> Parsed<E>, before: Run<E>, chunk: seq<byte>)
    ensures AfterChunk(parse, before, chunk).error == Drain(parse, before.partial + chunk, before.lines).error
  {
    hide Drain;
  }

  /** A parse that rejects one payload. */
  function Rejecting(payload: seq<byte>): seq<byte> -> Parsed<seq<byte>> {
    (p: seq<byte>) => if p == payload then Bad("rejected") else Event(p)
  }

  lemma RejectsIt(payload: seq<byte>, payloads: seq<seq<byte>>)
    ensures AllParse(Rejecting(payload), payloads) <==> payload !in payloads
  {
  }

  lemma {:induction false} StopsThere<E>(parse: seq<byte> -> Parsed<E>, chunks: seq<seq<byte>>, n: nat)
    requires n <= |chunks| && FeedAll(parse, chunks[..n]).error.Some?
    ensures FeedAll(parse, chunks) == FeedAll(parse, chunks[..n])
  {
    hide AfterChunk;
    if n == |chunks| {
      assert chunks[..n] == chunks;
    } else {
      var most := chunks[..|chunks| - 1];
      assert most[..n] == chunks[..n];
      StopsThere(parse, most, n);
    }
  }

  /** Where a chunk closes a new payload after another event, rejecting that payload loses an event. */
  lemma RoomForALoss(chunks: seq<seq<byte>>, i: nat, m: nat)
    requires i < |chunks| && ClosesNewAfterFirst(chunks, i, m)
    ensures var parse := Rejecting(Closed(chunks, i)[m]);
            FeedAll(parse, chunks).delivered != Drain(parse, Flatten(chunks), []).events
  {
    hide Drain, FeedAll, AfterChunk, Earlier, Closed, Values, AllParse;
    var closed := Closed(chunks, i);
    var parse := Rejecting(closed[m]);
    RejectsIt(closed[m], Earlier(chunks, i));
    RejectsIt(closed[m], closed[..m]);
    RejectsIt(closed[m], closed);
    StateBefore(parse, chunks, i);
    var before := FeedAll(parse, chunks[..i]);
    ChunkError(parse, before, chunks[i]);
    FirstBad(parse, closed, m);
    FeedsOneMore(parse, chunks, i);
    StopsThere(parse, chunks, i + 1);
    EventsLostWithAnError(parse, chunks);
  }

  /** If the first `m` payloads parse, there are at least `m` values. */
  lemma FirstBad<E>(parse: seq<byte> -> Parsed<E>, payloads: seq<seq<byte>>, m: nat)
    requires m < |payloads| && AllParse(parse, payloads[..m])
    ensures |Values(parse, payloads)| >= m
  {
    ValuesStop(parse, payloads);
    assert forall i | 0 <= i < m :: payloads[..m][i] == payloads[i];
  }

  lemma FeedsOneMore<E>(parse: seq<byte> -> Parsed<E>, chunks: seq<seq<byte>>, n: nat)
    requires n < |chunks| && FeedAll(parse, chunks[..n]).error.None?
    ensures FeedAll(parse, chunks[..n + 1]) == AfterChunk(parse, FeedAll(parse, chunks[..n]), chunks[n]).(fed := n + 1)
  {
    hide AfterChunk;
    assert chunks[..n + 1][..n] == chunks[..n];
  }

  /**
   * For every cut of every stream: some parse loses an event to an error if and only if some chunk closes
   * an event, after its first, whose payload occurs in no earlier event. This can be read off the bytes.
   */
  lemma EventsCanBeLostIff(chunks: seq<seq<byte>>)
    ensures (exists parse: seq<byte> -> Parsed<seq<byte>> ::
               FeedAll(parse, chunks).delivered != Drain(parse, Flatten(chunks), []).events)
       <==> CanLose(chunks)
  {
    hide Drain, FeedAll, Closed, ClosesNewAfterFirst;
    if CanLose(chunks) {
      var i: nat, m: nat :| i < |chunks| && ClosesNewAfterFirst(chunks, i, m);
      RoomForALoss(chunks, i, m);
    }
    if parse: seq<byte> -> Parsed<seq<byte>> :|
      FeedAll(parse, chunks).delivered != Drain(parse, Flatten(chunks), []).events
    {
      LossNeedsRoom(parse, chunks);
    }
  }

  /** Cut at line ends, as an HTTP response is iterated: a line feed at most as the last byte of a chunk. */
  ghost predicate CutAtLines(chunks: seq<seq<byte>>) {
    forall i | 0 <= i < |chunks| :: OneLine(chunks[i])
  }

  predicate OneLine(chunk: seq<byte>) {
    chunk == [] || LF !in chunk[..|chunk| - 1]
  }

  lemma {:induction false} NoLfLeft<E>(parse: seq<byte> -> Parsed<E>, bytes: seq<byte>, lines: seq<seq<byte>>)
    ensures Drain(parse, bytes, lines).error.None? ==> LF !in Drain(parse, bytes, lines).partial
    decreases |bytes|
  {
    hide OnLine;
    var k := FindLf(bytes);
    if k >= 0 {
      var o := OnLine(parse, bytes[..k], lines, bytes[k + 1..]);
      NoLfLeft(parse, o.partial, o.lines);
    }
  }

  /** A chunk with one line feed, at its end, closes at most one event. */
  lemma OneLineClosesOne(partial: seq<byte>, chunk: seq<byte>, lines: seq<seq<byte>>)
    requires LF !in partial && OneLine(chunk)
    ensures |Drain(Keep, partial + chunk, lines).events| <= 1
  {
    hide Drain, OnLine;
    var bytes := partial + chunk;
    var k := FindLf(bytes);
    if k < 0 {
      DrainNoLine(Keep, bytes, lines);
    } else {
      assert k >= |partial| && bytes[k] == chunk[k - |partial|];
      assert bytes[k + 1..] == [];
      DrainLine(Keep, bytes, k, lines);
      ParsedLine(Keep, bytes[..k], lines, []);
      DrainNoLine(Keep, [], OnLine(Keep, bytes[..k], lines, []).lines);
    }
  }

  /** Fed line by line nothing is ever lost: delivered are all events before the error. */
  lemma LinesLoseNothing<E>(parse: seq<byte> -> Parsed<E>, chunks: seq<seq<byte>>)
    requires CutAtLines(chunks)
    ensures FeedAll(parse, chunks).delivered == Drain(parse, Flatten(chunks), []).events
  {
    hide Drain, FeedAll, OneLine;
    if FeedAll(parse, chunks).delivered != Drain(parse, Flatten(chunks), []).events {
      LossNeedsRoom(parse, chunks);
      var i: nat, m: nat :| i < |chunks| && ClosesNewAfterFirst(chunks, i, m);
      NoLfLeft(Keep, Flatten(chunks[..i]), []);
      DrainIsValues(Keep, Flatten(chunks[..i]), []);
      var before := Drain(Keep, Flatten(chunks[..i]), []);
      OneLineClosesOne(before.partial, chunks[i], before.lines);
      assert false;
    }
  }

  // ---- lines without data -------------------------------------------------

  /** A line that is neither blank nor a data line: an event name, an id, a comment. */
  predicate NoData(raw: seq<byte>) { LF !in raw && StripCr(raw) != [] && !(DATA <= StripCr(raw)) }

  predicate AtLineStart(bytes: seq<byte>) { bytes == [] || bytes[|bytes| - 1] == LF }

  /** The same events, open event, error and rest; after an error the bytes left unread may differ. */
  ghost predicate SameRead<E>(o: Outcome<E>, p: Outcome<E>) {
    o.events == p.events && o.lines == p.lines && o.error == p.error && (o.error.None? ==> o.partial == p.partial)
  }

  lemma {:induction false} NothingPartial<E>(parse: seq<byte> -> Parsed<E>, bytes: seq<byte>, lines: seq<seq<byte>>)
    requires AtLineStart(bytes)
    ensures Drain(parse, bytes, lines).error.None? ==> Drain(parse, bytes, lines).partial == []
    decreases |bytes|
  {
    hide OnLine;
    var k := FindLf(bytes);
    if k < 0 {
      DrainNoLine(parse, bytes, lines);
    } else {
      var o := OnLine(parse, bytes[..k], lines, bytes[k + 1..]);
      NothingPartial(parse, o.partial, o.lines);
    }
  }

  lemma NoDataRead<E>(parse: seq<byte> -> Parsed<E>, raw: seq<byte>, rest: seq<byte>, lines: seq<seq<byte>>)
    requires NoData(raw)
    ensures Drain(parse, raw + [LF] + rest, lines) == Drain(parse, rest, lines)
  {
    hide Drain;
    LineRead(parse, raw, rest, lines);
    PrependNothing(Drain(parse, rest, lines));
  }

  /**
   * Inserting or removing a line without data, at any line boundary of any stream, changes neither the
   * events nor the open event nor the error.
   */
  lemma NoDataIsInvisible<E>(parse: seq<byte> -> Parsed<E>, a: seq<byte>, raw: seq<byte>, b: seq<byte>,
                             lines: seq<seq<byte>>)
    requires AtLineStart(a) && NoData(raw)
    ensures SameRead(Drain(parse, a + (raw + [LF] + b), lines), Drain(parse, a + b, lines))
  {
    hide Drain, NoData;
    DrainSplit(parse, a, raw + [LF] + b, lines);
    DrainSplit(parse, a, b, lines);
    NothingPartial(parse, a, lines);
    var o := Drain(parse, a, lines);
    if o.error.None? {
      assert [] + (raw + [LF] + b) == raw + [LF] + b && [] + b == b;
      NoDataRead(parse, raw, b, o.lines);
    }
  }

  // ---- printing -----------------------------------------------------------

  predicate IsEol(eol: seq<byte>) { eol == [LF] || eol == [CR, LF] }

  /** A line as a server prints it: payload, with or without a space behind the prefix, or something else. */
  datatype Line = Data(payload: seq<byte>, spaced: bool) | Other(raw: seq<byte>)

  function Raw(l: Line): seq<byte> {
    if l.Other? then l.raw else if l.spaced then DATA + [SPACE] + l.payload else DATA + l.payload
  }

  function PrintLine(l: Line, eol: seq<byte>): seq<byte> { Raw(l) + eol }

  function Body(lines: seq<Line>, eol: seq<byte>): seq<byte> {
    if lines == [] then [] else PrintLine(lines[0], eol) + Body(lines[1..], eol)
  }

  /** The lines of the event and a blank line. */
  function PrintEvent(lines: seq<Line>, eol: seq<byte>): seq<byte> { Body(lines, eol) + eol }

  function PrintAll(events: seq<seq<Line>>, eol: seq<byte>): seq<byte> {
    if events == [] then [] else PrintEvent(events[0], eol) + PrintAll(events[1..], eol)
  }

  predicate NoLf(lines: seq<seq<byte>>) { forall i | 0 <= i < |lines| :: LF !in lines[i] }

  /** What is left of a line when its end has been taken off. */
  function Stripped(line: seq<byte>, eol: seq<byte>): seq<byte> { if eol == [LF] then StripCr(line) else line }

  /**
   * Lines that survive printing: no line feed inside, before a bare line feed no carriage return at the
   * end, and no leading space behind a bare prefix; other lines are neither blank nor data.
   */
  predicate Survives(l: Line, eol: seq<byte>) {
    && LF !in Raw(l)
    && match l
       case Data(payload, spaced) =>
         Stripped(payload, eol) == payload && (spaced || payload == [] || payload[0] != SPACE)
       case Other(raw) => Stripped(raw, eol) != [] && !(DATA <= Stripped(raw, eol))
  }

  predicate Printable(lines: seq<Line>, eol: seq<byte>) { forall i | 0 <= i < |lines| :: Survives(lines[i], eol) }

  /** Lines that are read line by line: the other ones are not taken for data. */
  predicate Readable(lines: seq<Line>, eol: seq<byte>) {
    forall i | 0 <= i < |lines| :: LF !in Raw(lines[i]) && (lines[i].Other? ==> Survives(lines[i], eol))
  }

  function Payloads(lines: seq<Line>): seq<seq<byte>> {
    if lines == [] then []
    else (if lines[0].Data? then [lines[0].payload] else []) + Payloads(lines[1..])
  }

  /** What the parser makes of one printed payload. */
  function Kept(l: Line, eol: seq<byte>): seq<byte>
    requires l.Data?
  {
    var p := Stripped(l.payload, eol);
    if !l.spaced && p != [] && p[0] == SPACE then p[1..] else p
  }

  function KeptAll(lines: seq<Line>, eol: seq<byte>): seq<seq<byte>> {
    if lines == [] then []
    else (if lines[0].Data? then [Kept(lines[0], eol)] else []) + KeptAll(lines[1..], eol)
  }

  lemma {:induction false} FirstLf(raw: seq<byte>, rest: seq<byte>)
    requires LF !in raw
    ensures FindLf(raw + [LF] + rest) == |raw|
  {
    var s := raw + [LF] + rest;
    if raw == [] {
      assert s[0] == LF;
    } else {
      assert s[0] == raw[0] && raw[0] in raw;
      assert s[1..] == raw[1..] + [LF] + rest;
      FirstLf(raw[1..], rest);
    }
  }

  lemma LineRead<E>(parse: seq<byte> -> Parsed<E>, raw: seq<byte>, rest: seq<byte>, lines: seq<seq<byte>>)
    requires LF !in raw
    ensures Drain(parse, raw + [LF] + rest, lines) == Continue(parse, OnLine(parse, raw, lines, rest))
  {
    hide Drain, OnLine;
    var s := raw + [LF] + rest;
    FirstLf(raw, rest);
    DrainLine(parse, s, |raw|, lines);
    assert s[..|raw|] == raw && s[|raw| + 1..] == rest;
  }

  /** The raw line of a printed line, and what is read from it. */
  lemma RawLine(l: Line, eol: seq<byte>)
    requires IsEol(eol) && LF !in Raw(l) && (l.Other? ==> Survives(l, eol))
    ensures var raw := Raw(l) + eol[..|eol| - 1];
            && PrintLine(l, eol) == raw + [LF] && LF !in raw
            && if l.Data? then DATA <= StripCr(raw) && Payload(StripCr(raw)) == Kept(l, eol) else NoData(raw)
  {
    hide Kept, Payload;
    EndTakenOff(Raw(l), eol);
    if l.Data? {
      DataTaken(l, eol);
    }
  }

  lemma EndTakenOff(raw: seq<byte>, eol: seq<byte>)
    requires IsEol(eol) && LF !in raw
    ensures var whole := raw + eol[..|eol| - 1];
            raw + eol == whole + [LF] && LF !in whole && StripCr(whole) == Stripped(raw, eol)
  {
    assert eol == eol[..|eol| - 1] + [LF];
    if eol == [LF] {
      assert raw + eol[..0] == raw;
    }
  }

  lemma DataTaken(l: Line, eol: seq<byte>)
    requires IsEol(eol) && l.Data?
    ensures DATA <= Stripped(Raw(l), eol) && Payload(Stripped(Raw(l), eol)) == Kept(l, eol)
  {
    var prefix := if l.spaced then DATA + [SPACE] else DATA;
    PrefixStays(prefix, l.payload, eol);
  }

  lemma PrefixStays(prefix: seq<byte>, payload: seq<byte>, eol: seq<byte>)
    requires prefix != [] && prefix[|prefix| - 1] != CR
    ensures Stripped(prefix + payload, eol) == prefix + Stripped(payload, eol)
  {
  }

  lemma PrintedRead<E>(parse: seq<byte> -> Parsed<E>, l: Line, eol: seq<byte>, rest: seq<byte>, lines: seq<seq<byte>>)
    requires IsEol(eol) && LF !in Raw(l) && (l.Other? ==> Survives(l, eol))
    ensures Drain(parse, PrintLine(l, eol) + rest, lines)
         == Drain(parse, rest, lines + if l.Data? then [Kept(l, eol)] else [])
  {
    hide Drain, StripCr, Payload, Kept, PrintLine, Raw, NoData;
    var raw := Raw(l) + eol[..|eol| - 1];
    RawLine(l, eol);
    if l.Data? {
      LineRead(parse, raw, rest, lines);
      PrependNothing(Drain(parse, rest, lines + [Kept(l, eol)]));
    } else {
      NoDataRead(parse, raw, rest, lines);
      assert lines + [] == lines;
    }
  }

  lemma {:induction false} BodyRead<E>(parse: seq<byte> -> Parsed<E>, lines: seq<Line>, eol: seq<byte>,
                                       rest: seq<byte>, acc: seq<seq<byte>>)
    requires IsEol(eol) && Readable(lines, eol)
    ensures Drain(parse, Body(lines, eol) + rest, acc) == Drain(parse, rest, acc + KeptAll(lines, eol))
  {
    hide Drain, Kept, PrintLine, Raw, Survives;
    if lines == [] {
      assert Body(lines, eol) + rest == rest && acc + KeptAll(lines, eol) == acc;
    } else {
      var tail := Body(lines[1..], eol) + rest;
      var one := if lines[0].Data? then [Kept(lines[0], eol)] else [];
      assert Body(lines, eol) + rest == PrintLine(lines[0], eol) + tail;
      PrintedRead(parse, lines[0], eol, tail, acc);
      BodyRead(parse, lines[1..], eol, rest, acc + one);
      assert acc + one + KeptAll(lines[1..], eol) == acc + KeptAll(lines, eol);
    }
  }

  lemma BlankRead<E>(parse: seq<byte> -> Parsed<E>, eol: seq<byte>, rest: seq<byte>, lines: seq<seq<byte>>)
    requires IsEol(eol)
    ensures Drain(parse, eol + rest, lines)
         == if lines == [] then Drain(parse, rest, []) else Continue(parse, Dispatch(parse, lines, rest))
  {
    hide Drain, Join;
    var raw := eol[..|eol| - 1];
    assert eol == raw + [LF];
    LineRead(parse, raw, rest, lines);
    assert StripCr(raw) == [];
    PrependNothing(Drain(parse, rest, []));
  }

  lemma {:induction false} KeptIsSame(lines: seq<Line>, eol: seq<byte>)
    requires IsEol(eol) && Printable(lines, eol)
    ensures KeptAll(lines, eol) == Payloads(lines) && Readable(lines, eol)
  {
    if lines == [] {
    } else {
      KeptIsSame(lines[1..], eol);
      assert Survives(lines[0], eol);
    }
  }

  /**
   * The payloads as printed, up to the first that does not parse; the rest stays unread. An event without
   * a data line gives nothing.
   */
  function Expected<E>(parse: seq<byte> -> Parsed<E>, events: seq<seq<Line>>, eol: seq<byte>): Outcome<E> {
    if events == [] then Outcome([], [], [], None)
    else if Payloads(events[0]) == [] then Expected(parse, events[1..], eol)
    else
      match parse(Join(Payloads(events[0])))
      case Event(e) => Prepend([e], Expected(parse, events[1..], eol))
      case Bad(reason) => Outcome([], PrintAll(events[1..], eol), [], Some(reason))
  }

  predicate AllPrintable(events: seq<seq<Line>>, eol: seq<byte>) {
    forall i | 0 <= i < |events| :: Printable(events[i], eol)
  }

  lemma {:induction false} ParseUndoesPrint<E>(parse: seq<byte> -> Parsed<E>, events: seq<seq<Line>>, eol: seq<byte>)
    requires IsEol(eol) && AllPrintable(events, eol)
    ensures Drain(parse, PrintAll(events, eol), []) == Expected(parse, events, eol)
  {
    hide Drain, Printable, Body;
    if events == [] {
      DrainNoLine(parse, [], []);
    } else {
      EventRead(parse, events[0], eol, PrintAll(events[1..], eol));
      ParseUndoesPrint(parse, events[1..], eol);
    }
  }

  lemma EventRead<E>(parse: seq<byte> -> Parsed<E>, lines: seq<Line>, eol: seq<byte>, rest: seq<byte>)
    requires IsEol(eol) && Printable(lines, eol)
    ensures Drain(parse, PrintEvent(lines, eol) + rest, [])
         == if Payloads(lines) == [] then Drain(parse, rest, [])
            else Continue(parse, Dispatch(parse, Payloads(lines), rest))
  {
    hide Drain, Body, Join;
    assert PrintEvent(lines, eol) + rest == Body(lines, eol) + (eol + rest);
    KeptIsSame(lines, eol);
    BodyRead(parse, lines, eol, eol + rest, []);
    assert [] + Payloads(lines) == Payloads(lines);
    BlankRead(parse, eol, rest, Payloads(lines));
  }

  /** The stream with payloads "1" and "2" in one chunk, and a parse that knows "1" only: the event is lost. */
  lemma OneChunkLoses()
    ensures var stream := PrintAll([[Data([49], true)], [Data([50], true)]], [LF]);
            var parse: seq<byte> -> Parsed<int> := (p: seq<byte>) => if p == [49] then Event(1) else Bad("unknown");
            Drain(parse, stream, []).events == [1] && FeedAll(parse, [stream]).delivered == []
  {
    var events: seq<seq<Line>> := [[Data([49], true)], [Data([50], true)]];
    var stream := PrintAll(events, [LF]);
    var parse: seq<byte> -> Parsed<int> := (p: seq<byte>) => if p == [49] then Event(1) else Bad("unknown");
    assert events[1..] == [[Data([50], true)]] && events[1..][1..] == [];
    assert Payloads(events[0]) == [[49]] && Payloads(events[1]) == [[50]];
    assert Expected(parse, events[1..], [LF]).events == [] && Expected(parse, events[1..], [LF]).error.Some?;
    assert Expected(parse, events, [LF]).events == [1] && Expected(parse, events, [LF]).error.Some?;
    hide Drain, PrintAll, Expected;
    ParseUndoesPrint(parse, events, [LF]);
    var chunks := [stream];
    assert chunks[..0] == [] && chunks[0] == stream;
    NothingBefore(stream);
  }

  lemma NothingBefore(stream: seq<byte>)
    ensures [] + stream == stream
  {
  }

  /**
   * Printing any events, with other lines anywhere between their data lines, and feeding the bytes in any
   * pieces gives the events back.
   */
  lemma RoundTrip<E>(parse: seq<byte> -> Parsed<E>, events: seq<seq<Line>>, eol: seq<byte>, chunks: seq<seq<byte>>)
    requires IsEol(eol) && AllPrintable(events, eol) && Flatten(chunks) == PrintAll(events, eol)
    ensures SameAs(parse, chunks, FeedAll(parse, chunks), Expected(parse, events, eol))
  {
    hide Drain, SameAs;
    CutsAreInvisible(parse, chunks);
    ParseUndoesPrint(parse, events, eol);
  }

  lemma {:induction false} LinesHaveNoLf<E>(parse: seq<byte> -> Parsed<E>, bytes: seq<byte>, lines: seq<seq<byte>>)
    requires NoLf(lines)
    ensures NoLf(Drain(parse, bytes, lines).lines)
    decreases |bytes|
  {
    var k := FindLf(bytes);
    if k >= 0 {
      var o := OnLine(parse, bytes[..k], lines, bytes[k + 1..]);
      assert NoLf(o.lines);
      LinesHaveNoLf(parse, o.partial, o.lines);
    }
  }

  predicate OnlyData(lines: seq<Line>) { forall i | 0 <= i < |lines| :: lines[i].Data? }

  lemma {:induction false} OnePayloadEach(lines: seq<Line>, eol: seq<byte>)
    requires OnlyData(lines)
    ensures |Payloads(lines)| == |KeptAll(lines, eol)| == |lines|
    ensures forall i | 0 <= i < |lines| ::
      Payloads(lines)[i] == lines[i].payload && KeptAll(lines, eol)[i] == Kept(lines[i], eol)
  {
    hide Kept;
    if lines == [] {
    } else {
      OnePayloadEach(lines[1..], eol);
      assert forall i | 1 <= i < |lines| :: lines[i] == lines[1..][i - 1];
    }
  }

  lemma KeptIff(l: Line, eol: seq<byte>)
    requires l.Data? && LF !in l.payload
    ensures Kept(l, eol) == l.payload <==> Survives(l, eol)
    ensures LF !in Raw(l)
  {
    if Kept(l, eol) == l.payload {
      assert |Stripped(l.payload, eol)| <= |l.payload|;
    }
  }

  /** The parser holds exactly the printed payload lines -- exactly when they are printable. */
  lemma LinesSurvive<E>(parse: seq<byte> -> Parsed<E>, lines: seq<Line>, eol: seq<byte>)
    requires IsEol(eol) && OnlyData(lines)
    ensures Drain(parse, Body(lines, eol), []) == Outcome([], [], Payloads(lines), None) <==> Printable(lines, eol)
  {
    LinesHaveNoLf(parse, Body(lines, eol), []);
    OnePayloadEach(lines, eol);
    hide Drain, Body, Kept, Raw, Survives, KeptAll, Payloads;
    if Printable(lines, eol) {
      KeptIsSame(lines, eol);
      AllRead(parse, lines, eol);
    } else if NoLf(Payloads(lines)) {
      forall i | 0 <= i < |lines| ensures LF !in Raw(lines[i]) && (Kept(lines[i], eol) == lines[i].payload
                                          <==> Survives(lines[i], eol)) {
        assert LF !in Payloads(lines)[i];
        KeptIff(lines[i], eol);
      }
      AllRead(parse, lines, eol);
    }
  }

  lemma AllRead<E>(parse: seq<byte> -> Parsed<E>, lines: seq<Line>, eol: seq<byte>)
    requires IsEol(eol) && Readable(lines, eol)
    ensures Drain(parse, Body(lines, eol), []) == Outcome([], [], KeptAll(lines, eol), None)
  {
    hide Drain, Body, KeptAll, Readable;
    BodyRead(parse, lines, eol, [], []);
    DrainNoLine(parse, [], KeptAll(lines, eol));
    assert Body(lines, eol) + [] == Body(lines, eol) && [] + KeptAll(lines, eol) == KeptAll(lines, eol);
  }

  // ---- what may be left at the end ----------------------------------------

  /** Behind a complete stream `finish` accepts an unfinished line exactly when it holds blanks only. */
  lemma BlankRestIsAccepted<E>(parse: seq<byte> -> Parsed<E>, events: seq<seq<Line>>, eol: seq<byte>, rest: seq<byte>)
    requires IsEol(eol) && AllPrintable(events, eol) && Expected(parse, events, eol).error.None? && LF !in rest
    ensures var o := Drain(parse, PrintAll(events, eol) + rest, []);
            && o.error.None?
            && (Settled(o.partial, o.lines) <==> forall i | 0 <= i < |rest| :: rest[i] in {9, 11, 12, 13, 32})
  {
    ExpectedSettles(parse, events, eol);
    hide Drain, Expected;
    ParseUndoesPrint(parse, events, eol);
    DrainSplit(parse, PrintAll(events, eol), rest, []);
    assert [] + rest == rest;
    DrainNoLine(parse, rest, []);
    assert forall i | 0 <= i < |rest| :: rest[i] != LF;
  }

  // ---- texts --------------------------------------------------------------

  /** The lines of a text. */
  function SplitLf(text: seq<byte>): seq<seq<byte>>
    decreases |text|
  {
    var k := FindLf(text);
    if k < 0 then [text] else [text[..k]] + SplitLf(text[k + 1..])
  }

  lemma {:induction false} JoinCons(first: seq<byte>, lines: seq<seq<byte>>)
    requires lines != []
    ensures Join([first] + lines) == first + [LF] + Join(lines)
  {
    hide Join;
    var n := |lines| - 1;
    JoinOne(first);
    JoinSnoc([first] + lines[..n], lines[n]);
    assert [first] + lines == [first] + lines[..n] + [lines[n]] && lines == lines[..n] + [lines[n]];
    if n == 0 {
      JoinOne(lines[0]);
      assert [first] + lines[..0] == [first] && lines[..0] + [lines[0]] == [lines[0]];
    } else {
      JoinCons(first, lines[..n]);
      JoinSnoc(lines[..n], lines[n]);
      Reassociate(first, Join(lines[..n]), lines[n]);
    }
  }

  lemma Reassociate(first: seq<byte>, middle: seq<byte>, last: seq<byte>)
    ensures first + [LF] + middle + [LF] + last == first + [LF] + (middle + [LF] + last)
  {
  }

  lemma JoinSnoc(lines: seq<seq<byte>>, last: seq<byte>)
    requires lines != []
    ensures Join(lines + [last]) == Join(lines) + [LF] + last
  {
    assert (lines + [last])[..|lines|] == lines;
  }

  /** Splitting a text at its line feeds and joining the lines gives the text. */
  lemma {:induction false} JoinUndoesSplit(text: seq<byte>)
    ensures SplitLf(text) != [] && NoLf(SplitLf(text)) && Join(SplitLf(text)) == text
    decreases |text|
  {
    hide Join, FindLf;
    var k := FindLf(text);
    if k < 0 {
      JoinOne(text);
    } else {
      JoinUndoesSplit(text[k + 1..]);
      JoinCons(text[..k], SplitLf(text[k + 1..]));
      assert text == text[..k] + [LF] + text[k + 1..];
    }
  }

  lemma JoinOne(line: seq<byte>)
    ensures Join([line]) == line
  {
  }

  /** A text as data lines, one for each of its lines. */
  function TextLines(text: seq<byte>, spaced: bool): (r: seq<Line>)
    ensures OnlyData(r)
  {
    seq(|SplitLf(text)|, i requires 0 <= i < |SplitLf(text)| => Data(SplitLf(text)[i], spaced))
  }

  /** What the parser hands to `parse` for a text printed line by line is the text. */
  lemma TextSurvives(text: seq<byte>, spaced: bool)
    ensures TextLines(text, spaced) != [] && Join(Payloads(TextLines(text, spaced))) == text
  {
    JoinUndoesSplit(text);
    OnePayloadEach(TextLines(text, spaced), [LF]);
    assert Payloads(TextLines(text, spaced)) == SplitLf(text);
  }

  // ---- truncated streams --------------------------------------------------

  lemma {:induction false} CutInsideEvent<E>(parse: seq<byte> -> Parsed<E>, lines: seq<Line>, eol: seq<byte>,
                                             k: nat, acc: seq<seq<byte>>)
    requires IsEol(eol) && Readable(lines, eol) && OnlyData(lines)
    requires (lines != [] || acc != []) && k < |PrintEvent(lines, eol)|
    ensures var o := Drain(parse, PrintEvent(lines, eol)[..k], acc);
            o.error.None? && o.events == [] && (Settled(o.partial, o.lines) ==> k == 0 && acc == [])
  {
    hide Drain, Raw, Kept;
    var bytes := PrintEvent(lines, eol)[..k];
    if lines == [] {
      assert bytes == eol[..k] && LF !in bytes;
      DrainNoLine(parse, bytes, acc);
    } else {
      var first := PrintLine(lines[0], eol);
      assert PrintEvent(lines, eol) == first + PrintEvent(lines[1..], eol);
      RawLine(lines[0], eol);
      if k < |first| {
        assert bytes == first[..k] && LF !in bytes;
        DrainNoLine(parse, bytes, acc);
        StartsWithData(lines[0], eol);
        assert k > 0 ==> bytes[0] == 100;
      } else {
        assert bytes == first + PrintEvent(lines[1..], eol)[..k - |first|];
        PrintedRead(parse, lines[0], eol, PrintEvent(lines[1..], eol)[..k - |first|], acc);
        CutInsideEvent(parse, lines[1..], eol, k - |first|, acc + [Kept(lines[0], eol)]);
      }
    }
  }

  lemma StartsWithData(l: Line, eol: seq<byte>)
    requires l.Data?
    ensures PrintLine(l, eol) != [] && PrintLine(l, eol)[0] == 100
  {
  }

  /** A stream that ends inside an event is noticed: `finish` accepts the cut exactly at an event boundary. */
  lemma TruncationIsNoticed<E>(parse: seq<byte> -> Parsed<E>, events: seq<seq<Line>>, last: seq<Line>, eol: seq<byte>,
                               k: nat)
    requires IsEol(eol) && AllPrintable(events, eol) && Expected(parse, events, eol).error.None?
    requires last != [] && OnlyData(last) && Printable(last, eol) && k < |PrintEvent(last, eol)|
    ensures var o := Drain(parse, PrintAll(events, eol) + PrintEvent(last, eol)[..k], []);
            o.error.None? && (Settled(o.partial, o.lines) <==> k == 0)
  {
    ExpectedSettles(parse, events, eol);
    KeptIsSame(last, eol);
    hide Drain, Expected;
    ParseUndoesPrint(parse, events, eol);
    DrainSplit(parse, PrintAll(events, eol), PrintEvent(last, eol)[..k], []);
    assert [] + PrintEvent(last, eol)[..k] == PrintEvent(last, eol)[..k];
    CutInsideEvent(parse, last, eol, k, []);
    if k == 0 {
      DrainNoLine(parse, [], []);
    }
  }

  lemma {:induction false} ExpectedSettles<E>(parse: seq<byte> -> Parsed<E>, events: seq<seq<Line>>, eol: seq<byte>)
    ensures Expected(parse, events, eol).lines == []
    ensures Expected(parse, events, eol).error.None? ==> Expected(parse, events, eol).partial == []
  {
    if events == [] {
    } else {
      ExpectedSettles(parse, events[1..], eol);
    }
  }
}
