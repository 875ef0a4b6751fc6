/** Forwarding a run's events to a subscriber that reads a lossy channel and
    fills in what it missed from the hub's log. */
module RunForwarding {
  import opened Sequences
  import opened Text

  /** isOutput marks the events whose loss the hub admits to: text deltas and
      tool calls. */
  datatype Event = Event(cursor: int, isOutput: bool, data: string)

  datatype Snapshot = Snapshot(cursor: int, replayFrom: int, outputTruncated: bool)

  /** What one locked look at the hub returns. */
  datatype Read = Read(events: seq<Event>, snapshot: Snapshot)

  datatype Written =
    | Sent(event: Event)
    | Gap(requested: int, replayFrom: int)
    | Snap(snapshot: Snapshot)
    | Ping

  // ----- What is written -----

  /** The events past a cursor, in order, skipping any that is not past the
      one before. */
  function Sends(events: seq<Event>, cursor: int): seq<Written>
  {
    if events == [] then []
    else if events[0].cursor <= cursor then Sends(events[1..], cursor)
    else [Sent(events[0])] + Sends(events[1..], events[0].cursor)
  }

  function CursorAfter(events: seq<Event>, cursor: int): (r: int)
    ensures r >= cursor
    ensures forall k | 0 <= k < |events| :: events[k].cursor <= r
  {
    if events == [] then cursor
    else CursorAfter(events[1..], if events[0].cursor <= cursor then cursor else events[0].cursor)
  }

  predicate HasGap(s: Snapshot, requested: int)
  {
    s.outputTruncated && s.replayFrom > 0 && requested < s.replayFrom
  }

  function Response(read: Read, cursor: int): seq<Written>
  {
    if HasGap(read.snapshot, cursor) then [Gap(cursor, read.snapshot.replayFrom), Snap(read.snapshot)]
    else Sends(read.events, cursor)
  }

  function Next(read: Read, cursor: int): int
  {
    if HasGap(read.snapshot, cursor) then read.snapshot.cursor else CursorAfter(read.events, cursor)
  }

  /** What the loop can be woken by; the reply is what the hub would answer
      now, None if the run is gone. */
  datatype Signal =
    | Heartbeat
    | Received(event: Event, reply: Option<Read>)
    | Closed(reply: Option<Read>)
    | Canceled

  /** What the loop writes for one signal, where its cursor is then, and
      whether it goes on. */
  function React(signal: Signal, cursor: int): (seq<Written>, int, bool)
  {
    match signal
    case Heartbeat => ([Ping], cursor, true)
    case Canceled => ([], cursor, false)
    case Closed(reply) =>
      if reply.None? then ([], cursor, false)
      else (Response(reply.value, cursor), Next(reply.value, cursor), false)
    case Received(event, reply) =>
      if event.cursor <= cursor + 1 then (Sends([event], cursor), CursorAfter([event], cursor), true)
      else if reply.None? then ([], cursor, false)
      else (Response(reply.value, cursor), Next(reply.value, cursor), true)
  }

  function Reactions(signals: seq<Signal>, cursor: int): seq<Written>
  {
    if signals == [] then []
    else
      var (writes, next, goesOn) := React(signals[0], cursor);
      writes + if goesOn then Reactions(signals[1..], next) else []
  }

  // ----- The handler, writing to a client that may go away -----

  function Room(text: seq<Written>, room: nat): (n: nat)
    ensures n <= |text| && n <= room
  {
    if |text| <= room then |text| else room
  }

  /** What the client has and how many writes are left before it fails. */
  datatype Client = Client(out: seq<Written>, room: nat)

  /** The client got as much of the text as there was room for; ok if that was
      all of it. */
  predicate Wrote(before: Client, text: seq<Written>, ok: bool, after: Client)
  {
    && after.out == before.out + text[..Room(text, before.room)]
    && after.room == before.room - Room(text, before.room)
    && ok == (|text| <= before.room)
  }

  lemma {:induction false} WroteMore(x: Client, a: seq<Written>, y: Client, b: seq<Written>, ok: bool, z: Client)
    requires Wrote(x, a, true, y) && Wrote(y, b, ok, z)
    ensures Wrote(x, a + b, ok, z)
  {
    var n := Room(b, y.room);
    assert (a + b)[..|a| + n] == a + b[..n];
    assert x.out + (a + b[..n]) == (x.out + a) + b[..n];
  }

  lemma {:induction false} WroteNoMore(x: Client, a: seq<Written>, b: seq<Written>, y: Client)
    requires Wrote(x, a, false, y)
    ensures Wrote(x, a + b, false, y)
  {
    assert (a + b)[..x.room] == a[..x.room];
  }

  lemma {:induction false} WroteNothing(x: Client)
    ensures Wrote(x, [], true, x)
  {
    assert x.out + [] == x.out;
  }

  /** The event stream to one client. */
  class SSEWriter {
    var client: Client

    constructor (room: nat)
      ensures client == Client([], room)
    {
      client := Client([], room);
    }

    method Write(w: Written) returns (ok: bool)
      modifies this
      ensures Wrote(old(client), [w], ok, client)
    {
      if client.room == 0 {
        return false;
      }
      client := Client(client.out + [w], client.room - 1);
      return true;
    }
  }

  lemma {:induction false} SendsStep(events: seq<Event>, k: nat, cursor: int)
    requires k < |events|
    ensures Sends(events[k..], cursor) == (if events[k].cursor <= cursor then [] else [Sent(events[k])])
               + Sends(events[k + 1..], if events[k].cursor <= cursor then cursor else events[k].cursor)
    ensures CursorAfter(events[k..], cursor)
         == CursorAfter(events[k + 1..], if events[k].cursor <= cursor then cursor else events[k].cursor)
  {
    assert events[k..][1..] == events[k + 1..];
  }

  method WriteRunEvents(writer: SSEWriter, events: seq<Event>, cursor: int) returns (ok: bool, after: int)
    modifies writer
    ensures Wrote(old(writer.client), Sends(events, cursor), ok, writer.client)
    ensures ok ==> after == CursorAfter(events, cursor)
  {
    hide Wrote, Sends, CursorAfter;
    after := cursor;
    ghost var done: seq<Written> := [];
    WroteNothing(writer.client);
    assert events[0..] == events;
    for k := 0 to |events|
      invariant Sends(events, cursor) == done + Sends(events[k..], after)
      invariant CursorAfter(events, cursor) == CursorAfter(events[k..], after)
      invariant Wrote(old(writer.client), done, true, writer.client)
    {
      SendsStep(events, k, after);
      if events[k].cursor > after {
        ghost var before := writer.client;
        var wrote := writer.Write(Sent(events[k]));
        WroteMore(old(writer.client), done, before, [Sent(events[k])], wrote, writer.client);
        ghost var rest := Sends(events[k + 1..], events[k].cursor);
        Assoc(done, [Sent(events[k])], rest);
        done := done + [Sent(events[k])];
        if !wrote {
          WroteNoMore(old(writer.client), done, rest, writer.client);
          return false, after;
        }
        after := events[k].cursor;
      }
    }
    NoEvents(events[|events|..], after);
    assert done + [] == done;
    return true, after;
  }

  lemma {:induction false} NoEvents(events: seq<Event>, cursor: int)
    requires |events| == 0
    ensures Sends(events, cursor) == [] && CursorAfter(events, cursor) == cursor
  {
  }

  /** The gap and the snapshot, written one after the other. */
  method WriteGap(writer: SSEWriter, cursor: int, snapshot: Snapshot) returns (ok: bool)
    modifies writer
    ensures Wrote(old(writer.client), [Gap(cursor, snapshot.replayFrom), Snap(snapshot)], ok, writer.client)
  {
    var gap, snap := [Gap(cursor, snapshot.replayFrom)], [Snap(snapshot)];
    ok := writer.Write(gap[0]);
    if !ok {
      WroteNoMore(old(writer.client), gap, snap, writer.client);
      return;
    }
    ghost var between := writer.client;
    ok := writer.Write(snap[0]);
    WroteMore(old(writer.client), gap, between, snap, ok, writer.client);
  }

  method WriteMissedRunEvents(writer: SSEWriter, reply: Option<Read>, cursor: int) returns (ok: bool, after: int)
    modifies writer
    ensures reply.None? ==> !ok && writer.client == old(writer.client)
    ensures reply.Some? ==> Wrote(old(writer.client), Response(reply.value, cursor), ok, writer.client)
    ensures ok ==> after == Next(reply.value, cursor)
  {
    hide Wrote;
    after := cursor;
    if reply.None? {
      return false, cursor;
    }
    var snapshot := reply.value.snapshot;
    if HasGap(snapshot, cursor) {
      ok := WriteGap(writer, cursor, snapshot);
      return ok, snapshot.cursor;
    }
    ok, after := WriteRunEvents(writer, reply.value.events, cursor);
  }

  /** A live client is sent the event that is next, and nothing it has; only a
      cancelled request, a closed channel or a forgotten run end the loop. */
  lemma {:induction false} ReactIs(signal: Signal, cursor: int)
    ensures signal.Heartbeat? ==> React(signal, cursor) == ([Ping], cursor, true)
    ensures signal.Received? && signal.event.cursor == cursor + 1 ==>
              React(signal, cursor) == ([Sent(signal.event)], cursor + 1, true)
    ensures signal.Received? && signal.event.cursor <= cursor ==> React(signal, cursor) == ([], cursor, true)
    ensures !React(signal, cursor).2 ==>
              signal.Canceled? || signal.Closed?
              || (signal.Received? && signal.event.cursor > cursor + 1 && signal.reply == None)
  {
    if signal.Received? {
      SendsOne(signal.event, cursor);
    }
  }

  lemma {:induction false} SendsOne(e: Event, cursor: int)
    ensures Sends([e], cursor) == if e.cursor <= cursor then [] else [Sent(e)]
    ensures CursorAfter([e], cursor) == if e.cursor <= cursor then cursor else e.cursor
  {
    assert [e][1..] == [];
    NoEvents([], cursor);
    NoEvents([], e.cursor);
    assert [Sent(e)] + [] == [Sent(e)];
  }

  lemma {:induction false} WroteAll(before: Client, text: seq<Written>)
    ensures forall after :: Wrote(before, text, true, after) ==> after.out == before.out + text
    ensures text == [] ==> forall after :: Wrote(before, text, true, after) ==> after == before
  {
    assert text[..|text|] == text;
    assert text == [] ==> before.out + text == before.out;
  }

  /** One turn of the select loop. */
  method HandleSignal(writer: SSEWriter, signal: Signal, cursor: int) returns (ok: bool, after: int, goesOn: bool)
    modifies writer
    ensures Wrote(old(writer.client), React(signal, cursor).0, ok, writer.client)
    ensures ok ==> after == React(signal, cursor).1 && goesOn == React(signal, cursor).2
    ensures ok && signal.Heartbeat? ==>
              writer.client.out == old(writer.client.out) + [Ping] && after == cursor && goesOn
    ensures ok && signal.Received? && signal.event.cursor == cursor + 1 ==>
              writer.client.out == old(writer.client.out) + [Sent(signal.event)] && after == cursor + 1 && goesOn
    ensures ok && signal.Received? && signal.event.cursor <= cursor ==>
              writer.client == old(writer.client) && after == cursor && goesOn
    ensures ok && !goesOn ==>
              signal.Canceled? || signal.Closed?
              || (signal.Received? && signal.event.cursor > cursor + 1 && signal.reply == None)
  {
    ReactIs(signal, cursor);
    ghost var before := writer.client;
    ghost var text := React(signal, cursor).0;
    WroteAll(before, text);
    hide Wrote, Sends, CursorAfter, Response, Next;
    after := cursor;
    WroteNothing(writer.client);
    match signal {
      case Canceled =>
        return true, cursor, false;
      case Heartbeat =>
        ok := writer.Write(Ping);
        return ok, cursor, true;
      case Closed(reply) =>
        if reply.None? {
          return true, cursor, false;
        }
        ok, after := WriteMissedRunEvents(writer, reply, cursor);
        return ok, after, false;
      case Received(event, reply) =>
        if event.cursor > cursor + 1 {
          if reply.None? {
            return true, cursor, false;
          }
          ok, after := WriteMissedRunEvents(writer, reply, cursor);
          return ok, after, true;
        }
        ok, after := WriteRunEvents(writer, [event], cursor);
        return ok, after, true;
    }
  }

  /** The events read on subscribing, then the loop; no channel when the run
      is over. */
  method ForwardRunEvents(writer: SSEWriter, events: seq<Event>, ch: Option<seq<Signal>>, cursor: int)
    returns (ok: bool)
    modifies writer
    ensures Wrote(old(writer.client), Forwarded(events, ch, cursor), ok, writer.client)
    ensures ok && ch.Some? && InOrder(ch.value, CursorAfter(events, cursor)) ==>
              writer.client.out == old(writer.client.out) + (Sends(events, cursor) + Echo(ch.value))
  {
    InOrderIsForwarded(events, ch, cursor);
    WroteAll(writer.client, Forwarded(events, ch, cursor));
    hide Wrote, Sends, CursorAfter, React, Reactions, InOrder, Echo;
    var lastCursor;
    ok, lastCursor := WriteRunEvents(writer, events, cursor);
    ghost var done := Sends(events, cursor);
    if !ok || ch == None {
      if ch.Some? {
        WroteNoMore(old(writer.client), done, Reactions(ch.value, CursorAfter(events, cursor)), writer.client);
      } else {
        assert done + [] == done;
      }
      return;
    }
    var signals := ch.value;
    assert signals[0..] == signals;
    var k := 0;
    while k < |signals|
      invariant 0 <= k <= |signals|
      invariant Forwarded(events, ch, cursor) == done + Reactions(signals[k..], lastCursor)
      invariant Wrote(old(writer.client), done, true, writer.client)
    {
      ReactionsStep(signals, k, lastCursor);
      ghost var before := writer.client;
      ghost var (writes, next, more) := React(signals[k], lastCursor);
      ghost var rest := if more then Reactions(signals[k + 1..], next) else [];
      var after, goesOn;
      ok, after, goesOn := HandleSignal(writer, signals[k], lastCursor);
      WroteMore(old(writer.client), done, before, writes, ok, writer.client);
      Assoc(done, writes, rest);
      done := done + writes;
      if !ok {
        WroteNoMore(old(writer.client), done, rest, writer.client);
        return false;
      }
      if !goesOn {
        assert done + [] == done;
        return true;
      }
      lastCursor := after;
      k := k + 1;
    }
    NoSignals(signals[k..], lastCursor);
    assert done + [] == done;
    return true;
  }

  lemma {:induction false} NoSignals(signals: seq<Signal>, cursor: int)
    requires |signals| == 0
    ensures Reactions(signals, cursor) == []
  {
  }

  lemma {:induction false} ReactionsStep(signals: seq<Signal>, k: nat, cursor: int)
    requires k < |signals|
    ensures var r := React(signals[k], cursor);
            Reactions(signals[k..], cursor) == r.0 + if r.2 then Reactions(signals[k + 1..], r.1) else []
  {
    hide React;
    assert signals[k..][1..] == signals[k + 1..];
  }

  function Forwarded(events: seq<Event>, ch: Option<seq<Signal>>, cursor: int): seq<Written>
  {
    Sends(events, cursor) + if ch.None? then [] else Reactions(ch.value, CursorAfter(events, cursor))
  }

  /** What a client gets on subscribing, and where its cursor is then. */
  function Opened(read: Read, cursor: int): (seq<Written>, int)
  {
    if HasGap(read.snapshot, cursor) then
      ([Gap(cursor, read.snapshot.replayFrom), Snap(read.snapshot)] + Sends(read.events, read.snapshot.cursor),
       CursorAfter(read.events, read.snapshot.cursor))
    else (Sends(read.events, cursor), CursorAfter(read.events, cursor))
  }

  /** What a client that resumes at a cursor is to get. */
  function Resumed(read: Read, ch: Option<seq<Signal>>, cursor: int): seq<Written>
  {
    var (writes, next) := Opened(read, cursor);
    writes + if ch.None? then [] else Reactions(ch.value, next)
  }

  method ResumeRun(writer: SSEWriter, read: Read, ch: Option<seq<Signal>>, requested: int) returns (ok: bool)
    modifies writer
    ensures Wrote(old(writer.client), Resumed(read, ch, requested), ok, writer.client)
  {
    hide Wrote, Sends, CursorAfter, Reactions;
    var cursor := requested;
    var snapshot := read.snapshot;
    if HasGap(snapshot, cursor) {
      ok := WriteGap(writer, cursor, snapshot);
      ghost var gap := [Gap(cursor, snapshot.replayFrom), Snap(snapshot)];
      ghost var rest := Forwarded(read.events, ch, snapshot.cursor);
      Assoc(gap, Sends(read.events, snapshot.cursor),
            if ch.None? then [] else Reactions(ch.value, CursorAfter(read.events, snapshot.cursor)));
      if !ok {
        WroteNoMore(old(writer.client), gap, rest, writer.client);
        return;
      }
      cursor := snapshot.cursor;
      ghost var between := writer.client;
      ok := ForwardRunEvents(writer, read.events, ch, cursor);
      WroteMore(old(writer.client), gap, between, rest, ok, writer.client);
      return;
    }
    ok := ForwardRunEvents(writer, read.events, ch, cursor);
  }

  /** Heartbeats, and events each right behind the one before. */
  predicate InOrder(signals: seq<Signal>, cursor: int)
  {
    signals == []
    || (signals[0].Heartbeat? && InOrder(signals[1..], cursor))
    || (signals[0].Received? && signals[0].event.cursor == cursor + 1 && InOrder(signals[1..], cursor + 1))
  }

  function Echo(signals: seq<Signal>): seq<Written>
  {
    if signals == [] then []
    else (if signals[0].Received? then [Sent(signals[0].event)] else [Ping]) + Echo(signals[1..])
  }

  /** What comes in order is written as it comes, all of it, and the loop goes
      on. */
  lemma {:induction false} InOrderIsWritten(signals: seq<Signal>, cursor: int)
    requires InOrder(signals, cursor)
    ensures Reactions(signals, cursor) == Echo(signals) && End(signals, cursor).1
  {
    hide React;
    if signals == [] {
      NoSignals(signals, cursor);
    } else {
      ReactIs(signals[0], cursor);
      InOrderIsWritten(signals[1..], if signals[0].Heartbeat? then cursor else cursor + 1);
    }
  }

  lemma {:induction false} InOrderIsForwarded(events: seq<Event>, ch: Option<seq<Signal>>, cursor: int)
    ensures ch.Some? && InOrder(ch.value, CursorAfter(events, cursor)) ==>
              Forwarded(events, ch, cursor) == Sends(events, cursor) + Echo(ch.value)
  {
    hide InOrder, Echo, Sends, CursorAfter, Reactions;
    if ch.Some? && InOrder(ch.value, CursorAfter(events, cursor)) {
      InOrderIsWritten(ch.value, CursorAfter(events, cursor));
    }
  }

  /** Where the loop's cursor is after all the signals, and whether it is still
      going on. */
  function End(signals: seq<Signal>, cursor: int): (int, bool)
  {
    if signals == [] then (cursor, true)
    else
      var (writes, next, goesOn) := React(signals[0], cursor);
      if goesOn then End(signals[1..], next) else (next, false)
  }

  /** One more signal is reacted to exactly if the loop still goes on. */
  lemma {:induction false} ReactionsAppend(signals: seq<Signal>, signal: Signal, cursor: int)
    ensures var (c, goesOn) := End(signals, cursor);
            var r := React(signal, c);
            && Reactions(signals + [signal], cursor) == Reactions(signals, cursor) + (if goesOn then r.0 else [])
            && End(signals + [signal], cursor) == if goesOn then (r.1, r.2) else (c, false)
  {
    hide React;
    var all := signals + [signal];
    if signals == [] {
      assert all == [signal] && all[1..] == [];
      NoSignals([], React(signal, cursor).1);
      assert End([], React(signal, cursor).1) == (React(signal, cursor).1, true);
    } else {
      var (writes, next, goesOn) := React(signals[0], cursor);
      assert all[0] == signals[0] && all[1..] == signals[1..] + [signal];
      if goesOn {
        ReactionsAppend(signals[1..], signal, next);
        var e := End(signals[1..], next);
        Assoc(writes, Reactions(signals[1..], next), if e.1 then React(signal, e.0).0 else []);
      }
    }
  }
}
