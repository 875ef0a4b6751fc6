/** The hub and one subscriber as a step machine: what the subscriber is sent
    over every run, whatever the channel delivers and however the hub trims. */
module RunLog {
  import opened Sequences
  import opened Text
  import opened RunForwarding

  /** Everything a run recorded, how much of its start has been trimmed off
      the log, and whether it still runs or has been forgotten. */
  datatype Hub = Hub(hist: seq<Event>, base: nat, running: bool, gone: bool)

  /** Live reads the channel; Drained saw it closed and filled in the rest;
      Left stopped on an error or a cancelled request. */
  datatype Phase = Fresh | Live | Drained | Left

  datatype Sub = Sub(phase: Phase, start: int, cursor: int, written: seq<Written>)

  datatype State = State(hub: Hub, sub: Sub)

  datatype Step =
    | Record(isOutput: bool, data: string, trim: nat)
    | Finish
    | Forget
    | Open(start: nat)
    | Take(signal: Woken)

  /** The channel may lose, delay and reorder: any event of the run may be
      what it delivers next. */
  datatype Woken = Beat | Delivered(k: nat) | ChannelClosed | Cancel

  predicate HubOk(h: Hub)
  {
    h.base <= |h.hist| && forall k | 0 <= k < |h.hist| :: h.hist[k].cursor == k + 1
  }

  /** The hub admits to a loss once an output event has been trimmed. */
  predicate Truncated(h: Hub)
    requires h.base <= |h.hist|
  {
    exists k | 0 <= k < h.base :: h.hist[k].isOutput
  }

  function EventsAfterCursor(events: seq<Event>, cursor: int): seq<Event>
  {
    if events == [] then []
    else EventsAfterCursor(events[..|events| - 1], cursor)
         + if events[|events| - 1].cursor > cursor then [events[|events| - 1]] else []
  }

  function Look(h: Hub, cursor: int): Read
    requires h.base <= |h.hist|
  {
    Read(EventsAfterCursor(h.hist[h.base..], cursor), Snapshot(|h.hist|, h.base, Truncated(h)))
  }

  function Reply(h: Hub, cursor: int): Option<Read>
    requires h.base <= |h.hist|
  {
    if h.gone then None else Some(Look(h, cursor))
  }

  function ToSignal(s: State, w: Woken): Signal
    requires s.hub.base <= |s.hub.hist| && (w.Delivered? ==> w.k < |s.hub.hist|)
  {
    match w
    case Beat => Heartbeat
    case Cancel => Canceled
    case Delivered(k) => Received(s.hub.hist[k], Reply(s.hub, s.sub.cursor))
    case ChannelClosed => Closed(Reply(s.hub, s.sub.cursor))
  }

  predicate Enabled(s: State, step: Step)
  {
    match step
    case Record(isOutput, data, trim) => s.hub.running && s.hub.base + trim <= |s.hub.hist| + 1
    case Finish => s.hub.running
    case Forget => !s.hub.running
    case Open(start) => s.sub.phase == Fresh && !s.hub.gone
    case Take(w) =>
      && s.sub.phase == Live
      && (w.Delivered? ==> w.k < |s.hub.hist|)
      && (w.ChannelClosed? ==> !s.hub.running)
  }

  function AfterSignal(s: State, w: Woken): Sub
    requires HubOk(s.hub) && Enabled(s, Take(w))
  {
    var signal := ToSignal(s, w);
    var r := React(signal, s.sub.cursor);
    var phase := if r.2 then Live else if w.ChannelClosed? && !s.hub.gone then Drained else Left;
    Sub(phase, s.sub.start, r.1, s.sub.written + r.0)
  }

  function After(s: State, step: Step): State
    requires HubOk(s.hub) && Enabled(s, step)
  {
    match step
    case Record(isOutput, data, trim) =>
      var hist := s.hub.hist + [Event(|s.hub.hist| + 1, isOutput, data)];
      s.(hub := Hub(hist, s.hub.base + trim, true, s.hub.gone))
    case Finish => s.(hub := s.hub.(running := false))
    case Forget => s.(hub := s.hub.(gone := true))
    case Open(start) =>
      var (writes, cursor) := Opened(Look(s.hub, start), start);
      s.(sub := Sub(if s.hub.running then Live else Drained, start, cursor, writes))
    case Take(w) => s.(sub := AfterSignal(s, w))
  }

  const INIT := State(Hub([], 0, true, false), Sub(Fresh, 0, 0, []))

  predicate IsRun(states: seq<State>, steps: seq<Step>)
  {
    && |states| == |steps| + 1 && states[0] == INIT
    && forall i | 0 <= i < |steps| ::
         HubOk(states[i].hub) && Enabled(states[i], steps[i]) && states[i + 1] == After(states[i], steps[i])
  }

  // ----- What a client can tell from what it gets -----

  /** Where a client is that checks what it reads: at a cursor, between a gap
      and its snapshot, or past a hole nobody announced. */
  datatype Pos = At(cursor: int) | Torn(replayFrom: int) | Hole

  function Follow(p: Pos, w: Written): Pos
  {
    match w
    case Ping => p
    case Sent(e) => if p.At? && e.cursor == p.cursor + 1 then At(e.cursor) else Hole
    case Gap(requested, from) => if p == At(requested) && requested < from then Torn(from) else Hole
    case Snap(s) => if p.Torn? && s.cursor >= p.replayFrom then At(s.cursor) else Hole
  }

  function FollowAll(p: Pos, ws: seq<Written>): Pos
  {
    if ws == [] then p else Follow(FollowAll(p, ws[..|ws| - 1]), ws[|ws| - 1])
  }

  lemma {:induction false} FollowConcat(p: Pos, a: seq<Written>, b: seq<Written>)
    ensures FollowAll(p, a + b) == FollowAll(FollowAll(p, a), b)
  {
    hide Follow;
    if b == [] {
      assert a + b == a;
    } else {
      FollowConcat(p, a, b[..|b| - 1]);
      assert (a + b)[..|a + b| - 1] == a + b[..|b| - 1];
    }
  }

  /** The cursors a client is brought to, in order. */
  function Cursors(ws: seq<Written>): seq<int>
  {
    if ws == [] then [] else Cursors(ws[..|ws| - 1]) + CursorOf(ws[|ws| - 1])
  }

  function CursorOf(w: Written): seq<int>
  {
    if w.Sent? then [w.event.cursor] else if w.Snap? then [w.snapshot.cursor] else []
  }

  lemma {:induction false} CursorsConcat(a: seq<Written>, b: seq<Written>)
    ensures Cursors(a + b) == Cursors(a) + Cursors(b)
  {
    if b == [] {
      assert a + b == a;
    } else {
      var init, last := b[..|b| - 1], b[|b| - 1];
      CursorsConcat(a, init);
      assert (a + b)[..|a + b| - 1] == a + init && (a + b)[|a + b| - 1] == last;
      Assoc(Cursors(a), Cursors(init), CursorOf(last));
    }
  }

  /** Strictly increasing, within (lo, hi]. */
  predicate Rising(cs: seq<int>, lo: int, hi: int)
  {
    && (forall i | 0 <= i < |cs| :: lo < cs[i] <= hi)
    && (forall i, j | 0 <= i < j < |cs| :: cs[i] < cs[j])
  }

  predicate Genuine(h: Hub, ws: seq<Written>)
  {
    forall k | 0 <= k < |ws| && ws[k].Sent? ::
      1 <= ws[k].event.cursor <= |h.hist| && ws[k].event == h.hist[ws[k].event.cursor - 1]
  }

  function SentAll(events: seq<Event>): seq<Written>
  {
    if events == [] then [] else [Sent(events[0])] + SentAll(events[1..])
  }

  // ----- One look at the log -----

  /** The events still held past a cursor. */
  function Held(h: Hub, cursor: int): (k: nat)
    requires h.base <= |h.hist| && cursor >= 0
    ensures k <= |h.hist|
  {
    if cursor <= h.base then h.base else if cursor <= |h.hist| then cursor else |h.hist|
  }

  lemma {:induction false} EventsAfterIs(h: Hub, cursor: int, n: nat)
    requires HubOk(h) && cursor >= 0 && h.base <= n <= |h.hist|
    ensures EventsAfterCursor(h.hist[h.base..n], cursor)
         == if Held(h, cursor) <= n then h.hist[Held(h, cursor)..n] else []
  {
    hide Held, HubOk, EventsAfterCursor;
    if n > h.base {
      EventsAfterIs(h, cursor, n - 1);
      EventsAfterStep(h.hist, h.base, n, cursor);
      HeldStep(h, cursor, n);
    } else {
      EventsAfterNone(h.hist[h.base..n], cursor);
      HeldStart(h, cursor);
    }
  }

  lemma {:induction false} EventsAfterNone(events: seq<Event>, cursor: int)
    requires |events| == 0
    ensures EventsAfterCursor(events, cursor) == []
  {
  }

  lemma {:induction false} EventsAfterStep(hist: seq<Event>, base: nat, n: nat, cursor: int)
    requires base < n <= |hist|
    ensures EventsAfterCursor(hist[base..n], cursor)
         == EventsAfterCursor(hist[base..n - 1], cursor) + if hist[n - 1].cursor > cursor then [hist[n - 1]] else []
  {
    var events := hist[base..n];
    assert events[..|events| - 1] == hist[base..n - 1] && events[|events| - 1] == hist[n - 1];
  }

  lemma {:induction false} HeldStep(h: Hub, cursor: int, n: nat)
    requires HubOk(h) && cursor >= 0 && h.base < n <= |h.hist|
    ensures var k := Held(h, cursor);
            (if k <= n then h.hist[k..n] else [])
            == (if k <= n - 1 then h.hist[k..n - 1] else [])
               + if h.hist[n - 1].cursor > cursor then [h.hist[n - 1]] else []
  {
    var k := Held(h, cursor);
    if k <= n - 1 {
      assert h.hist[k..n] == h.hist[k..n - 1] + [h.hist[n - 1]];
    }
  }

  lemma {:induction false} HeldStart(h: Hub, cursor: int)
    requires HubOk(h) && cursor >= 0
    ensures Held(h, cursor) <= h.base ==> h.hist[Held(h, cursor)..h.base] == []
  {
  }

  lemma {:induction false} LookEvents(h: Hub, cursor: int)
    requires HubOk(h) && cursor >= 0
    ensures Look(h, cursor).events == h.hist[Held(h, cursor)..]
  {
    hide EventsAfterCursor;
    EventsAfterIs(h, cursor, |h.hist|);
    assert h.hist[h.base..|h.hist|] == h.hist[h.base..];
    assert h.hist[Held(h, cursor)..|h.hist|] == h.hist[Held(h, cursor)..];
  }

  /** The tail of a history is sent in full to whoever is not past it. */
  lemma {:induction false} SendsTail(h: Hub, m: nat, cursor: int)
    requires HubOk(h) && m <= |h.hist| && (cursor <= m || m == |h.hist|)
    ensures Sends(h.hist[m..], cursor) == SentAll(h.hist[m..])
    ensures CursorAfter(h.hist[m..], cursor) == if m == |h.hist| then cursor else |h.hist|
    decreases |h.hist| - m
  {
    if m < |h.hist| {
      SendsTail(h, m + 1, m + 1);
      assert h.hist[m..][1..] == h.hist[m + 1..];
    }
  }

  lemma {:induction false} SentAllFacts(h: Hub, m: nat)
    requires HubOk(h) && m <= |h.hist|
    ensures FollowAll(At(m), SentAll(h.hist[m..])) == At(|h.hist|)
    ensures Rising(Cursors(SentAll(h.hist[m..])), m, |h.hist|)
    ensures Genuine(h, SentAll(h.hist[m..]))
    decreases |h.hist| - m
  {
    hide FollowAll, Cursors, Rising, Genuine, SentAll;
    if m < |h.hist| {
      SentAllFacts(h, m + 1);
      var first, rest := [Sent(h.hist[m])], SentAll(h.hist[m + 1..]);
      SentAllStep(h.hist, m);
      FollowConcat(At(m), first, rest);
      CursorsConcat(first, rest);
      OneSent(h.hist[m], m);
      OneGenuine(h, m);
      RisingAppend(Cursors(first), Cursors(rest), m, m + 1, |h.hist|);
      GenuineAppend(h, first, rest);
    } else {
      NothingSent(h, m);
    }
  }

  lemma {:induction false} SentAllStep(hist: seq<Event>, m: nat)
    requires m < |hist|
    ensures SentAll(hist[m..]) == [Sent(hist[m])] + SentAll(hist[m + 1..])
  {
    assert hist[m..][1..] == hist[m + 1..];
  }

  lemma {:induction false} OneGenuine(h: Hub, m: nat)
    requires HubOk(h) && m < |h.hist|
    ensures Genuine(h, [Sent(h.hist[m])]) && Rising([m + 1], m, m + 1)
  {
  }

  lemma {:induction false} OneSent(e: Event, m: int)
    requires e.cursor == m + 1
    ensures FollowAll(At(m), [Sent(e)]) == At(m + 1)
    ensures Cursors([Sent(e)]) == [m + 1]
  {
    var ws := [Sent(e)];
    assert ws[..0] == [];
    assert FollowAll(At(m), []) == At(m) && Cursors([]) == [];
  }

  lemma {:induction false} SendsPast(h: Hub, m: nat, cursor: int)
    requires HubOk(h) && m <= |h.hist| <= cursor
    ensures Sends(h.hist[m..], cursor) == [] && CursorAfter(h.hist[m..], cursor) == cursor
    decreases |h.hist| - m
  {
    if m < |h.hist| {
      SendsPast(h, m + 1, cursor);
      assert h.hist[m..][1..] == h.hist[m + 1..];
    }
  }

  /** The cursor is behind what was trimmed, and nothing says so. */
  predicate Silent(h: Hub, cursor: int)
    requires h.base <= |h.hist|
  {
    cursor < h.base && !Truncated(h)
  }

  lemma {:induction false} GapResponse(h: Hub, c: int)
    requires HubOk(h) && 0 <= c < h.base && Truncated(h)
    ensures HasGap(Look(h, c).snapshot, c) && Next(Look(h, c), c) == |h.hist|
    ensures FollowAll(At(c), Response(Look(h, c), c)) == At(|h.hist|)
    ensures Cursors(Response(Look(h, c), c)) == [|h.hist|] && Genuine(h, Response(Look(h, c), c))
  {
    hide EventsAfterCursor, Truncated;
    var read := Look(h, c);
    var gap, snap := Gap(c, h.base), Snap(read.snapshot);
    var ws := [gap, snap];
    assert Response(read, c) == ws && ws[..1] == [gap] && [gap][..0] == [];
    assert FollowAll(At(c), []) == At(c) && FollowAll(At(c), [gap]) == Torn(h.base);
    assert Cursors([]) == [] && Cursors([gap]) == [];
  }

  lemma {:induction false} TailResponse(h: Hub, c: int)
    requires HubOk(h) && c >= 0 && !(c < h.base && Truncated(h))
    ensures !HasGap(Look(h, c).snapshot, c)
    ensures Response(Look(h, c), c) == SentAll(h.hist[Held(h, c)..])
    ensures Next(Look(h, c), c) == if Held(h, c) == |h.hist| then c else |h.hist|
  {
    hide EventsAfterCursor, Truncated, Sends, CursorAfter;
    LookEvents(h, c);
    SendsTail(h, Held(h, c), c);
  }

  /** What a look owes a client at cursor c: the gap and a snapshot if it admits
      to one, else all it still holds past the cursor. */
  function Owed(h: Hub, c: int): seq<Written>
    requires h.base <= |h.hist|
  {
    if c < h.base && Truncated(h) then [Gap(c, h.base), Snap(Snapshot(|h.hist|, h.base, true))]
    else
      var from := if c < h.base then h.base else c;
      if from < |h.hist| then SentAll(h.hist[from..]) else []
  }

  lemma {:induction false} LookPays(h: Hub, c: int)
    requires HubOk(h) && c >= 0
    ensures Response(Look(h, c), c) == Owed(h, c)
    ensures Next(Look(h, c), c) == if c >= |h.hist| || (Silent(h, c) && h.base == |h.hist|) then c else |h.hist|
  {
    hide EventsAfterCursor, Truncated, Sends, CursorAfter, SentAll, Rising, Genuine;
    if c < h.base && Truncated(h) {
      GapResponse(h, c);
      assert HasGap(Look(h, c).snapshot, c);
    } else {
      TailResponse(h, c);
      NothingSent(h, 0);
    }
  }

  lemma {:induction false} Skipped(h: Hub, c: int)
    requires HubOk(h) && 0 <= c < h.base
    ensures FollowAll(At(c), SentAll(h.hist[h.base..])) == if h.base < |h.hist| then Hole else At(c)
  {
    if h.base < |h.hist| {
      var first, rest := [Sent(h.hist[h.base])], SentAll(h.hist[h.base + 1..]);
      assert h.hist[h.base..][1..] == h.hist[h.base + 1..];
      assert first[..0] == [] && FollowAll(At(c), []) == At(c) && FollowAll(At(c), first) == Hole;
      FollowConcat(At(c), first, rest);
      HoleStays(rest);
    }
  }

  lemma {:induction false} HoleStays(ws: seq<Written>)
    ensures FollowAll(Hole, ws) == Hole
  {
    if ws != [] {
      HoleStays(ws[..|ws| - 1]);
    }
  }

  /** What one look at the log gives the client: true events with rising
      cursors always; and no hole, exactly unless the look is silent and the
      log still holds something. */
  lemma {:induction false} LookFacts(h: Hub, c: int)
    requires HubOk(h) && c >= 0
    ensures var ws, n := Response(Look(h, c), c), Next(Look(h, c), c);
            && n >= c && Rising(Cursors(ws), c, n) && Genuine(h, ws)
            && FollowAll(At(c), ws) == (if Silent(h, c) && h.base < |h.hist| then Hole else At(n))
            && (n >= |h.hist| <==> !(Silent(h, c) && h.base == |h.hist|))
  {
    hide Response, Next, Look, Truncated, FollowAll, Cursors, SentAll, Genuine;
    if c < h.base && Truncated(h) {
      GapResponse(h, c);
    } else {
      TailResponse(h, c);
      SentAllFacts(h, Held(h, c));
      if c < h.base {
        Skipped(h, c);
        NothingSent(h, c);
      } else if c > |h.hist| {
        NothingSent(h, c);
      }
    }
  }

  lemma {:induction false} NothingSent(h: Hub, c: int)
    ensures SentAll(h.hist[|h.hist|..]) == [] && FollowAll(At(c), []) == At(c) && Cursors([]) == []
    ensures Rising([], c, c) && Genuine(h, [])
  {
  }

  /** A look leaves the client whole and caught up, unless the log was trimmed
      past its cursor without an output event among what was trimmed. */
  lemma {:induction false} LookIsWholeExactlyUnlessSilent(h: Hub, c: int)
    requires HubOk(h) && c >= 0
    ensures var ws, n := Response(Look(h, c), c), Next(Look(h, c), c);
            FollowAll(At(c), ws) == At(n) && n >= |h.hist| <==> !(c < h.base && !Truncated(h))
  {
    hide Response, Next, Look, Truncated, FollowAll;
    LookFacts(h, c);
  }

  lemma {:induction false} OpenedIsResponse(h: Hub, c: int)
    requires HubOk(h) && c >= 0
    ensures Opened(Look(h, c), c) == (Response(Look(h, c), c), Next(Look(h, c), c))
  {
    hide EventsAfterCursor, Truncated, Sends, CursorAfter;
    LookEvents(h, c);
    SendsPast(h, Held(h, c), |h.hist|);
    var gap := [Gap(c, Look(h, c).snapshot.replayFrom), Snap(Look(h, c).snapshot)];
    assert gap + [] == gap;
  }

  // ----- Over every run -----

  predicate Inv(s: State)
  {
    && HubOk(s.hub)
    && 0 <= s.sub.start <= s.sub.cursor
    && Rising(Cursors(s.sub.written), s.sub.start, s.sub.cursor)
    && Genuine(s.hub, s.sub.written)
    && (s.sub.phase == Fresh ==> s.sub.written == [] && s.sub.cursor == s.sub.start)
    && (s.sub.phase == Drained ==> !s.hub.running)
  }

  /** What the client can tell. */
  function Position(s: State): Pos
  {
    FollowAll(At(s.sub.start), s.sub.written)
  }

  /** The step looks at the log for the subscriber. */
  predicate Looks(s: State, step: Step)
    requires HubOk(s.hub) && Enabled(s, step)
  {
    || step.Open?
    || (step.Take? && !s.hub.gone
        && (step.signal.ChannelClosed?
          || (step.signal.Delivered? && s.hub.hist[step.signal.k].cursor > s.sub.cursor + 1)))
  }

  function LooksFrom(s: State, step: Step): int
  {
    if step.Open? then step.start else s.sub.cursor
  }

  /** The step sends the client past a hole that nothing announces. */
  predicate Skips(s: State, step: Step)
    requires HubOk(s.hub) && Enabled(s, step)
  {
    Looks(s, step) && Silent(s.hub, LooksFrom(s, step)) && s.hub.base < |s.hub.hist|
  }

  lemma {:induction false} RisingAppend(a: seq<int>, b: seq<int>, lo: int, mid: int, hi: int)
    requires Rising(a, lo, mid) && Rising(b, mid, hi) && lo <= mid <= hi
    ensures Rising(a + b, lo, hi)
  {
  }

  lemma {:induction false} GenuineAppend(h: Hub, a: seq<Written>, b: seq<Written>)
    requires Genuine(h, a) && Genuine(h, b)
    ensures Genuine(h, a + b)
  {
  }

  /** Taking a signal appends writes that continue the client's reading. */
  lemma {:induction false} TakeFacts(s: State, w: Woken)
    requires Inv(s) && Enabled(s, Take(w))
    ensures var t := AfterSignal(s, w);
            var r := React(ToSignal(s, w), s.sub.cursor);
            && r.1 >= s.sub.cursor && Rising(Cursors(r.0), s.sub.cursor, r.1) && Genuine(s.hub, r.0)
            && FollowAll(At(s.sub.cursor), r.0) == (if Skips(s, Take(w)) then Hole else At(r.1))
  {
    hide Response, Next, Look, Truncated, FollowAll, Cursors, Silent, Sends, CursorAfter, Rising, Genuine, Position;
    var c := s.sub.cursor;
    Quiet(s.hub, c);
    if Looks(s, Take(w)) {
      LookFacts(s.hub, c);
    } else if w.Delivered? && !(s.hub.hist[w.k].cursor > c + 1) {
      DeliveredNext(s.hub, w.k, c);
    }
  }

  /** Nothing written, or a heartbeat: the client stays where it is. */
  lemma {:induction false} Quiet(h: Hub, c: int)
    ensures FollowAll(At(c), []) == At(c) && FollowAll(At(c), [Ping]) == At(c)
    ensures Cursors([]) == [] && Cursors([Ping]) == [] && Rising([], c, c)
    ensures Genuine(h, []) && Genuine(h, [Ping])
  {
    assert [Ping][..0] == [];
  }

  lemma {:induction false} DeliveredNext(h: Hub, k: nat, c: int)
    requires HubOk(h) && k < |h.hist| && h.hist[k].cursor <= c + 1
    ensures var ws, n := Sends([h.hist[k]], c), CursorAfter([h.hist[k]], c);
            n >= c && Rising(Cursors(ws), c, n) && Genuine(h, ws) && FollowAll(At(c), ws) == At(n)
  {
    hide FollowAll, Cursors;
    var e := h.hist[k];
    var ws := if e.cursor <= c then [] else [Sent(e)];
    assert [e][1..] == [] && Sends([], e.cursor) == [] && Sends([], c) == [];
    assert Sends([e], c) == ws;
    Quiet(h, c);
    if e.cursor == c + 1 {
      OneSent(e, c);
    }
  }

  lemma {:induction false} StepKeepsInv(s: State, step: Step)
    requires Inv(s) && Enabled(s, step)
    ensures Inv(After(s, step))
    ensures step.Open? || step.Take? || Position(After(s, step)) == Position(s)
  {
    hide Response, Next, Look, Truncated, FollowAll, Cursors, Rising, React, Opened, Reply;
    match step {
      case Record(isOutput, data, trim) =>
        GenuineGrows(s.hub, s.sub.written, Event(|s.hub.hist| + 1, isOutput, data), s.hub.base + trim);
      case Finish =>
      case Forget =>
      case Open(start) =>
        OpenedIsResponse(s.hub, start);
        LookFacts(s.hub, start);
      case Take(w) =>
        TakeKeepsInv(s, w);
    }
  }

  lemma {:induction false} GenuineGrows(h: Hub, ws: seq<Written>, e: Event, base: nat)
    requires Genuine(h, ws)
    ensures Genuine(Hub(h.hist + [e], base, true, h.gone), ws)
  {
  }

  lemma {:induction false} TakeKeepsInv(s: State, w: Woken)
    requires Inv(s) && Enabled(s, Take(w))
    ensures Inv(After(s, Take(w)))
    ensures Position(After(s, Take(w))) == FollowAll(Position(s), React(ToSignal(s, w), s.sub.cursor).0)
  {
    hide FollowAll, Cursors, Rising, React, Genuine, Skips, ToSignal;
    var r := React(ToSignal(s, w), s.sub.cursor);
    TakeFacts(s, w);
    CursorsConcat(s.sub.written, r.0);
    RisingAppend(Cursors(s.sub.written), Cursors(r.0), s.sub.start, s.sub.cursor, r.1);
    GenuineAppend(s.hub, s.sub.written, r.0);
    FollowConcat(At(s.sub.start), s.sub.written, r.0);
  }

  /** One step moves the client's position to the new cursor, or into a hole if
      the step skips; a hole is for ever. */
  lemma {:induction false} StepPosition(s: State, step: Step)
    requires Inv(s) && Enabled(s, step)
    requires Position(s) == At(s.sub.cursor) || Position(s) == Hole
    ensures Position(After(s, step))
         == if Position(s) == Hole || Skips(s, step) then Hole else At(After(s, step).sub.cursor)
  {
    hide FollowAll, Cursors, Rising, React, Genuine, ToSignal, Truncated, Opened, Reply, Look;
    if step.Take? {
      TakeKeepsInv(s, step.signal);
      TakeFacts(s, step.signal);
      HoleStays(React(ToSignal(s, step.signal), s.sub.cursor).0);
    } else if step.Open? {
      OpenedIsResponse(s.hub, step.start);
      LookFacts(s.hub, step.start);
      Quiet(s.hub, s.sub.cursor);
    }
  }

  /** In every run the events sent are the recorded ones and the cursors
      written rise strictly. */
  lemma {:induction false} RunsKeepInv(states: seq<State>, steps: seq<Step>, i: nat)
    requires IsRun(states, steps) && i <= |steps|
    ensures Inv(states[i])
  {
    hide After, Enabled;
    if i > 0 {
      RunsKeepInv(states, steps, i - 1);
      StepKeepsInv(states[i - 1], steps[i - 1]);
    } else {
      assert Cursors([]) == [];
    }
  }

  predicate SkippedBefore(states: seq<State>, steps: seq<Step>, i: nat)
    requires IsRun(states, steps) && i <= |steps|
  {
    exists j | 0 <= j < i :: Skips(states[j], steps[j])
  }

  /** A client is led past an unannounced hole exactly when some look at the
      log skipped; otherwise what it has is contiguous up to its cursor but for
      announced gaps, each with its snapshot. */
  lemma {:induction false} HolesAreSkips(states: seq<State>, steps: seq<Step>, i: nat)
    requires IsRun(states, steps) && i <= |steps|
    ensures Position(states[i]) == if SkippedBefore(states, steps, i) then Hole else At(states[i].sub.cursor)
  {
    hide After, Enabled, Skips, FollowAll;
    if i > 0 {
      HolesAreSkips(states, steps, i - 1);
      RunsKeepInv(states, steps, i - 1);
      StepPosition(states[i - 1], steps[i - 1]);
      assert SkippedBefore(states, steps, i)
          <==> SkippedBefore(states, steps, i - 1) || Skips(states[i - 1], steps[i - 1]);
    } else {
      Quiet(INIT.hub, 0);
    }
  }

  /** The hub always admits to what it trimmed. */
  predicate Announced(h: Hub)
    requires h.base <= |h.hist|
  {
    h.base > 0 ==> Truncated(h)
  }

  /** Where the hub admits to every loss, no client ever meets a hole, and one
      that saw the channel close without an error has caught up with the log,
      whatever the channel dropped. */
  lemma {:induction false} AnnouncedRunsAreWhole(states: seq<State>, steps: seq<Step>, i: nat)
    requires IsRun(states, steps) && i <= |steps|
    requires forall j | 0 <= j < i :: Announced(states[j].hub)
    ensures Position(states[i]) == At(states[i].sub.cursor)
    ensures states[i].sub.phase == Drained ==> states[i].sub.cursor >= |states[i].hub.hist|
  {
    hide After, Enabled, FollowAll, Truncated;
    HolesAreSkips(states, steps, i);
    forall j | 0 <= j < i ensures !Skips(states[j], steps[j]) {
      RunsKeepInv(states, steps, j);
    }
    DrainedRunsCaughtUp(states, steps, i);
  }

  lemma {:induction false} DrainedRunsCaughtUp(states: seq<State>, steps: seq<Step>, i: nat)
    requires IsRun(states, steps) && i <= |steps|
    requires forall j | 0 <= j < i :: Announced(states[j].hub)
    ensures states[i].sub.phase == Drained ==> states[i].sub.cursor >= |states[i].hub.hist|
  {
    hide After, Enabled, Announced, Inv;
    if i > 0 {
      DrainedRunsCaughtUp(states, steps, i - 1);
      RunsKeepInv(states, steps, i - 1);
      StepDrains(states[i - 1], steps[i - 1]);
    }
  }

  lemma {:induction false} StepDrains(s: State, step: Step)
    requires Inv(s) && Enabled(s, step) && Announced(s.hub)
    requires s.sub.phase == Drained ==> s.sub.cursor >= |s.hub.hist|
    ensures var t := After(s, step); t.sub.phase == Drained ==> t.sub.cursor >= |t.hub.hist|
  {
    hide FollowAll, Cursors, Rising, Genuine, Truncated, Opened, Look, Response, Next, Sends, CursorAfter;
    if step.Take? {
      LookFacts(s.hub, s.sub.cursor);
    } else if step.Open? {
      OpenedIsResponse(s.hub, step.start);
      LookFacts(s.hub, step.start);
    }
  }

  // ----- Who has caught up -----

  /** The subscriber's last look found a log that was trimmed past its cursor,
      silently, and held nothing any more. */
  predicate FoundNothing(s: State, step: Step)
    requires HubOk(s.hub) && Enabled(s, step)
  {
    Silent(s.hub, LooksFrom(s, step)) && s.hub.base == |s.hub.hist|
  }

  lemma {:induction false} DrainingStep(s: State, step: Step)
    requires Inv(s) && Enabled(s, step)
    requires s.sub.phase != Drained && After(s, step).sub.phase == Drained
    ensures var t := After(s, step);
            !t.hub.running && (t.sub.cursor >= |t.hub.hist| <==> !FoundNothing(s, step))
  {
    hide FollowAll, Cursors, Rising, Genuine, Truncated, Opened, Look, Response, Next, Sends, CursorAfter;
    if step.Take? {
      LookFacts(s.hub, s.sub.cursor);
    } else if step.Open? {
      OpenedIsResponse(s.hub, step.start);
      LookFacts(s.hub, step.start);
    }
  }

  lemma {:induction false} DrainedStays(s: State, step: Step)
    requires Inv(s) && Enabled(s, step) && s.sub.phase == Drained
    ensures After(s, step).sub == s.sub && After(s, step).hub.hist == s.hub.hist
  {
    hide FollowAll, Cursors, Rising, Genuine;
  }

  /** A client that saw the channel close without an error has caught up with the
      log for good, exactly unless its closing look found nothing. */
  lemma {:induction false} DrainedExactly(states: seq<State>, steps: seq<Step>, k: nat, n: nat)
    requires IsRun(states, steps) && k < n <= |steps|
    requires states[k].sub.phase != Drained && states[k + 1].sub.phase == Drained
    ensures states[n].sub.phase == Drained
    ensures states[n].sub.cursor >= |states[n].hub.hist| <==> !FoundNothing(states[k], steps[k])
  {
    hide After, Enabled, Inv, FoundNothing;
    if n == k + 1 {
      RunsKeepInv(states, steps, k);
      DrainingStep(states[k], steps[k]);
    } else {
      DrainedExactly(states, steps, k, n - 1);
      RunsKeepInv(states, steps, n - 1);
      DrainedStays(states[n - 1], steps[n - 1]);
    }
  }

  // ----- What reaches a live subscriber -----

  /** What one signal does to a live subscriber, in terms of the log alone. The
      event that is next is sent at once; one that is ahead makes up for what was
      missed; one it has changes nothing. Only a cancelled request, a closed
      channel or a forgotten run end the stream. */
  lemma {:induction false} TakenSignals(s: State, w: Woken)
    requires Inv(s) && Enabled(s, Take(w))
    ensures var t, sub, h := After(s, Take(w)).sub, s.sub, s.hub;
            match w
            case Beat => t == sub.(written := sub.written + [Ping])
            case Cancel => t == sub.(phase := Left)
            case ChannelClosed =>
              if h.gone then t == sub.(phase := Left)
              else t.phase == Drained && t.written == sub.written + Owed(h, sub.cursor)
            case Delivered(k) =>
              if k < sub.cursor then t == sub
              else if k == sub.cursor then t == sub.(cursor := k + 1, written := sub.written + [Sent(h.hist[k])])
              else if h.gone then t == sub.(phase := Left)
              else t.phase == Live && t.written == sub.written + Owed(h, sub.cursor)
                   && (t.cursor >= |h.hist| || FoundNothing(s, Take(w)))
  {
    hide Response, Next, Look, Truncated, FollowAll, Cursors, Sends, CursorAfter, Rising, Genuine, Owed, React;
    var c := s.sub.cursor;
    LookPays(s.hub, c);
    ReactIs(ToSignal(s, w), c);
    assert s.sub.written + [] == s.sub.written;
    ReactAnswers(s, w);
  }

  lemma {:induction false} ReactAnswers(s: State, w: Woken)
    requires Inv(s) && Enabled(s, Take(w))
    ensures w.Cancel? ==> React(ToSignal(s, w), s.sub.cursor) == ([], s.sub.cursor, false)
    ensures w.ChannelClosed? || (w.Delivered? && w.k > s.sub.cursor) ==>
              var r, c := React(ToSignal(s, w), s.sub.cursor), s.sub.cursor;
              if s.hub.gone then r == ([], c, false)
              else r == (Response(Look(s.hub, c), c), Next(Look(s.hub, c), c), w.Delivered?)
  {
    hide Response, Next, Look, Inv, Rising, Genuine, Cursors;
    assert HubOk(s.hub) by { HubIsOk(s); }
  }

  lemma {:induction false} HubIsOk(s: State)
    requires Inv(s)
    ensures HubOk(s.hub) && s.sub.cursor >= 0
  {
  }

  lemma {:induction false} CursorRises(s: State, step: Step)
    requires Inv(s) && Enabled(s, step)
    ensures After(s, step).sub.cursor >= s.sub.cursor || step.Open?
    ensures s.sub.phase != Fresh ==> !step.Open?
    ensures After(s, step).sub.phase == Fresh ==> s.sub.phase == Fresh
  {
    hide React, Rising, Genuine, Cursors, Opened, Look, ToSignal;
    if step.Take? {
      TakeFacts(s, step.signal);
    }
  }

  lemma {:induction false} CursorsRise(states: seq<State>, steps: seq<Step>, i: nat, n: nat)
    requires IsRun(states, steps) && i <= n <= |steps| && states[i].sub.phase != Fresh
    ensures states[n].sub.cursor >= states[i].sub.cursor && states[n].sub.phase != Fresh
  {
    hide After, Enabled, HubOk;
    if i < n {
      CursorsRise(states, steps, i, n - 1);
      RunsKeepInv(states, steps, n - 1);
      CursorRises(states[n - 1], steps[n - 1]);
    }
  }

  /** Whatever the channel delivers, the client is past it from then on, unless
      the run was forgotten or a silently emptied log had nothing left. */
  lemma {:induction false} DeliveriesArrive(states: seq<State>, steps: seq<Step>, i: nat, n: nat)
    requires IsRun(states, steps) && i < n <= |steps| && steps[i].Take? && steps[i].signal.Delivered?
    ensures states[n].sub.cursor > steps[i].signal.k
            || (states[i].hub.gone && states[i].sub.cursor < steps[i].signal.k) || FoundNothing(states[i], steps[i])
  {
    hide After, FoundNothing, Owed;
    RunsKeepInv(states, steps, i);
    TakenSignals(states[i], steps[i].signal);
    CursorsRise(states, steps, i + 1, n);
  }

  /** The client was sent event k, or a gap that covers it and a snapshot. */
  predicate Told(ws: seq<Written>, k: int)
  {
    || (exists j | 0 <= j < |ws| :: ws[j].Sent? && ws[j].event.cursor == k + 1)
    || (exists i, j | 0 <= i < j < |ws| :: ws[i].Gap? && ws[j].Snap? && ws[i].requested <= k < ws[j].snapshot.cursor)
  }

  lemma {:induction false} ToldStays(ws: seq<Written>, w: Written, k: int)
    requires Told(ws, k)
    ensures Told(ws + [w], k)
  {
    var all := ws + [w];
    if j :| 0 <= j < |ws| && ws[j].Sent? && ws[j].event.cursor == k + 1 {
      assert all[j] == ws[j];
    } else {
      var i, j :| 0 <= i < j < |ws| && ws[i].Gap? && ws[j].Snap? && ws[i].requested <= k < ws[j].snapshot.cursor;
      assert all[i] == ws[i] && all[j] == ws[j];
    }
  }

  /** A client that is nowhere led past a hole was told of all up to its cursor,
      or up to the gap it is being told of. */
  lemma {:induction false} FollowTells(a: int, ws: seq<Written>) returns (i: nat)
    requires FollowAll(At(a), ws) != Hole
    ensures var p := FollowAll(At(a), ws);
            && (p.At? ==> forall k | a <= k < p.cursor :: Told(ws, k))
            && (p.Torn? ==> i < |ws| && ws[i].Gap? && forall k | a <= k < ws[i].requested :: Told(ws, k))
  {
    hide Told;
    i := 0;
    if ws != [] {
      var n := |ws| - 1;
      i := FollowTells(a, ws[..n]);
      assert ws == ws[..n] + [ws[n]];
      var before := FollowAll(At(a), ws[..n]);
      if ws[n].Gap? {
        i := n;
      }
      forall k | Told(ws[..n], k) ensures Told(ws, k) { ToldStays(ws[..n], ws[n], k); }
      if ws[n].Sent? {
        SentTells(ws, n);
      } else if ws[n].Snap? {
        SnapTells(ws, i, n);
      }
    }
  }

  lemma {:induction false} SentTells(ws: seq<Written>, n: nat)
    requires n < |ws| && ws[n].Sent?
    ensures Told(ws, ws[n].event.cursor - 1)
  {
  }

  lemma {:induction false} SnapTells(ws: seq<Written>, i: nat, j: nat)
    requires i < j < |ws| && ws[i].Gap? && ws[j].Snap?
    ensures forall k | ws[i].requested <= k < ws[j].snapshot.cursor :: Told(ws, k)
  {
  }

  /** Where no look skipped, the client was sent every event from where it
      started up to its cursor, or was told of the gap it fell into. */
  lemma {:induction false} NothingIsMissing(states: seq<State>, steps: seq<Step>, n: nat)
    requires IsRun(states, steps) && n <= |steps| && !SkippedBefore(states, steps, n)
    ensures forall k | states[n].sub.start <= k < states[n].sub.cursor :: Told(states[n].sub.written, k)
  {
    hide After, Enabled, Told, FollowAll, Skips;
    HolesAreSkips(states, steps, n);
    var i := FollowTells(states[n].sub.start, states[n].sub.written);
  }

  // ----- The handler's writes are the run's -----

  /** What woke the handler in the first n steps, with the hub's answers. */
  function Signals(states: seq<State>, steps: seq<Step>, n: nat): seq<Signal>
    requires IsRun(states, steps) && n <= |steps|
  {
    if n == 0 then []
    else Signals(states, steps, n - 1)
         + if steps[n - 1].Take? then [ToSignal(states[n - 1], steps[n - 1].signal)] else []
  }

  lemma {:induction false} FreshBefore(states: seq<State>, steps: seq<Step>, j: nat)
    requires IsRun(states, steps) && j <= |steps| && states[j].sub.phase == Fresh
    ensures Signals(states, steps, j) == []
  {
    hide Enabled, HubOk;
    if j > 0 {
      FreshStep(states[j - 1], steps[j - 1]);
      FreshBefore(states, steps, j - 1);
    }
  }

  lemma {:induction false} FreshStep(s: State, step: Step)
    requires HubOk(s.hub) && Enabled(s, step) && After(s, step).sub.phase == Fresh
    ensures s.sub.phase == Fresh && !step.Take?
  {
    hide React, ToSignal, Opened, Look;
  }

  /** The channel a client that opened in state s reads, after n steps. */
  function Channel(states: seq<State>, steps: seq<Step>, j: nat, n: nat): Option<seq<Signal>>
    requires IsRun(states, steps) && j < |states| && n <= |steps|
  {
    if states[j].hub.running then Some(Signals(states, steps, n)) else None
  }

  /** The client's part of a state follows from what the handler read. */
  predicate Serves(s: Sub, read: Read, ch: Option<seq<Signal>>, start: int)
  {
    var (writes, next) := Opened(read, start);
    var (cursor, goesOn) := if ch.None? then (next, false) else End(ch.value, next);
    && s.phase != Fresh && s.start == start && s.written == Resumed(read, ch, start)
    && s.cursor == cursor && (s.phase == Live <==> goesOn)
  }

  lemma {:induction false} ServesOpen(s: State, start: nat)
    requires HubOk(s.hub) && Enabled(s, Open(start))
    ensures Serves(After(s, Open(start)).sub, Look(s.hub, start), if s.hub.running then Some([]) else None, start)
  {
    hide Look, Opened;
    var (writes, cursor) := Opened(Look(s.hub, start), start);
    NoSignals([], cursor);
    assert writes + [] == writes;
  }

  lemma {:induction false} ServesTake(s: State, w: Woken, read: Read, signals: seq<Signal>, start: int)
    requires HubOk(s.hub) && Enabled(s, Take(w)) && Serves(s.sub, read, Some(signals), start)
    ensures Serves(After(s, Take(w)).sub, read, Some(signals + [ToSignal(s, w)]), start)
  {
    hide Look, Opened, React, ToSignal, End, Reactions;
    var (writes, cursor) := Opened(read, start);
    ReactionsAppend(signals, ToSignal(s, w), cursor);
    Assoc(writes, Reactions(signals, cursor), React(ToSignal(s, w), s.sub.cursor).0);
  }

  lemma {:induction false} ServesOther(s: State, step: Step)
    requires HubOk(s.hub) && Enabled(s, step) && s.sub.phase != Fresh && !step.Take?
    ensures After(s, step).sub == s.sub
  {
  }

  /** In every run, what the subscriber was sent is what the handler writes for
      its look on opening and for everything that woke it since. */
  lemma {:induction false} RunsAreServed(states: seq<State>, steps: seq<Step>, j: nat, n: nat)
    requires IsRun(states, steps) && j < n <= |steps| && steps[j].Open?
    ensures Serves(states[n].sub, Look(states[j].hub, steps[j].start), Channel(states, steps, j, n), steps[j].start)
  {
    hide After, Enabled, HubOk, Serves, Look, ToSignal;
    if n == j + 1 {
      OpensFresh(states[j], steps[j]);
      FreshBefore(states, steps, j);
      ServesOpen(states[j], steps[j].start);
      assert Signals(states, steps, n) == [];
    } else {
      RunsAreServed(states, steps, j, n - 1);
      ServesOneMore(states, steps, j, n - 1);
    }
  }

  lemma {:induction false} OpensFresh(s: State, step: Step)
    requires Enabled(s, step) && step.Open?
    ensures s.sub.phase == Fresh
  {
  }

  lemma {:induction false} ServesOneMore(states: seq<State>, steps: seq<Step>, j: nat, n: nat)
    requires IsRun(states, steps) && j < n < |steps| && steps[j].Open?
    requires Serves(states[n].sub, Look(states[j].hub, steps[j].start), Channel(states, steps, j, n), steps[j].start)
    ensures Serves(states[n + 1].sub, Look(states[j].hub, steps[j].start), Channel(states, steps, j, n + 1),
        steps[j].start)
  {
    hide After, Enabled, Look, ToSignal, Opened, End, Resumed, Signals;
    assert HubOk(states[j].hub);
    var read, start := Look(states[j].hub, steps[j].start), steps[j].start;
    SignalsStep(states, steps, n);
    if steps[n].Take? {
      TakesLive(states[n], steps[n]);
      if states[j].hub.running {
        ServesTake(states[n], steps[n].signal, read, Signals(states, steps, n), start);
      }
    } else {
      ServesOther(states[n], steps[n]);
      assert Signals(states, steps, n) + [] == Signals(states, steps, n);
    }
  }

  lemma {:induction false} SignalsStep(states: seq<State>, steps: seq<Step>, n: nat)
    requires IsRun(states, steps) && n < |steps|
    ensures Signals(states, steps, n + 1)
         == Signals(states, steps, n) + if steps[n].Take? then [ToSignal(states[n], steps[n].signal)] else []
  {
    hide After, Enabled, HubOk, ToSignal;
  }

  lemma {:induction false} TakesLive(s: State, step: Step)
    requires Enabled(s, step) && step.Take?
    ensures s.sub.phase == Live
  {
  }

  lemma {:induction false} PrefixesAreWhole(h: Hub, p: Pos, ws: seq<Written>, n: nat, lo: int, hi: int)
    requires n <= |ws| && Genuine(h, ws) && Rising(Cursors(ws), lo, hi)
    ensures FollowAll(p, ws) != Hole ==> FollowAll(p, ws[..n]) != Hole
    ensures Genuine(h, ws[..n]) && Rising(Cursors(ws[..n]), lo, hi)
  {
    hide FollowAll, Cursors;
    assert ws == ws[..n] + ws[n..];
    FollowConcat(p, ws[..n], ws[n..]);
    CursorsConcat(ws[..n], ws[n..]);
    RisingFirst(Cursors(ws[..n]), Cursors(ws[n..]), lo, hi);
    HoleStays(ws[n..]);
  }

  lemma {:induction false} RisingFirst(a: seq<int>, b: seq<int>, lo: int, hi: int)
    requires Rising(a + b, lo, hi)
    ensures Rising(a, lo, hi)
  {
    assert forall i | 0 <= i < |a| :: (a + b)[i] == a[i];
  }

  /** The handler, serving the subscriber of a run to a client that may go away
      at any time. The client gets recorded events with strictly rising cursors;
      it is never led past an unannounced hole unless a look of the run skipped;
      and if it stays, it gets all that the run sent, which without a skip is
      every event up to its cursor but for the announced gaps. */
  method ServeRun(writer: SSEWriter, states: seq<State>, steps: seq<Step>, j: nat) returns (ok: bool)
    requires IsRun(states, steps) && j < |steps| && steps[j].Open? && writer.client.out == []
    modifies writer
    ensures var n := |steps|;
            && Genuine(states[n].hub, writer.client.out)
            && Rising(Cursors(writer.client.out), steps[j].start, states[n].sub.cursor)
            && (!SkippedBefore(states, steps, n) ==> FollowAll(At(steps[j].start), writer.client.out) != Hole)
            && (ok ==> writer.client.out == states[n].sub.written)
            && (ok && !SkippedBefore(states, steps, n) ==>
              forall k | states[n].sub.start <= k < states[n].sub.cursor :: Told(writer.client.out, k))
            && (forall i | j < i < n && steps[i].Take? && steps[i].signal.Delivered? ::
              states[n].sub.cursor > steps[i].signal.k
              || (states[i].hub.gone && states[i].sub.cursor < steps[i].signal.k) || FoundNothing(states[i], steps[i]))
  {
    hide After, Enabled, HubOk, Serves, Look, Resumed, Wrote, Genuine, Rising, FollowAll, Cursors, SkippedBefore,
        Signals, Told, FoundNothing;
    var n := |steps|;
    assert HubOk(states[j].hub);
    Openable(states[j], steps[j]);
    var read := Look(states[j].hub, steps[j].start);
    var ch := Channel(states, steps, j, n);
    ok := ResumeRun(writer, read, ch, steps[j].start);
    RunsAreServed(states, steps, j, n);
    RunsKeepInv(states, steps, n);
    HolesAreSkips(states, steps, n);
    ServedIsWritten(states[n], read, ch, steps[j].start);
    PrefixOfWritten(Resumed(read, ch, steps[j].start), old(writer.client), ok, writer.client);
    if !SkippedBefore(states, steps, n) {
      NothingIsMissing(states, steps, n);
    }
    forall i | j < i < n && steps[i].Take? && steps[i].signal.Delivered?
      ensures states[n].sub.cursor > steps[i].signal.k
        || (states[i].hub.gone && states[i].sub.cursor < steps[i].signal.k) || FoundNothing(states[i], steps[i])
    {
      DeliveriesArrive(states, steps, i, n);
    }
    var sent := |writer.client.out|;
    PrefixesAreWhole(states[n].hub, At(steps[j].start), states[n].sub.written, sent, steps[j].start,
        states[n].sub.cursor);
  }

  lemma {:induction false} Openable(s: State, step: Step)
    requires HubOk(s.hub) && Enabled(s, step)
    ensures s.hub.base <= |s.hub.hist|
  {
  }

  lemma {:induction false} ServedIsWritten(s: State, read: Read, ch: Option<seq<Signal>>, start: int)
    requires Serves(s.sub, read, ch, start) && Inv(s)
    ensures s.sub.start == start && s.sub.written == Resumed(read, ch, start)
    ensures Genuine(s.hub, s.sub.written) && Rising(Cursors(s.sub.written), start, s.sub.cursor)
    ensures Position(s) == FollowAll(At(start), s.sub.written)
  {
    hide FollowAll, Cursors, Rising, Genuine, Resumed;
  }

  lemma {:induction false} PrefixOfWritten(text: seq<Written>, before: Client, ok: bool, after: Client)
    requires Wrote(before, text, ok, after) && before.out == []
    ensures |after.out| <= |text| && after.out == text[..|after.out|] && (ok ==> after.out == text)
  {
  }

  // ----- How much the hub trims -----

  /** The size a run may cache, the encoded size of an event, and that of the
      output rebuilt from the events held. */
  datatype Cache = Cache(maxBytes: int, size: Event -> nat, output: seq<Event> -> nat)

  function StoredBytes(c: Cache, events: seq<Event>): nat
  {
    if events == [] then 0 else c.size(events[0]) + StoredBytes(c, events[1..])
  }

  function CacheBytes(c: Cache, events: seq<Event>): nat
  {
    StoredBytes(c, events) + c.output(events)
  }

  /** Drops events from k on until what is stored is down to the target. */
  function DropToTarget(c: Cache, events: seq<Event>, k: nat): (n: nat)
    requires k <= |events|
    ensures k <= n <= |events|
    decreases |events| - k
  {
    if k == |events| || StoredBytes(c, events[k..]) <= c.maxBytes / 3 then k else DropToTarget(c, events, k + 1)
  }

  /** Drops events from k on until the cache is within its size. */
  function DropUntilFits(c: Cache, events: seq<Event>, k: nat): (n: nat)
    requires k <= |events|
    ensures k <= n <= |events|
    ensures n < |events| ==> CacheBytes(c, events[n..]) <= c.maxBytes
    decreases |events| - k
  {
    if k == |events| || CacheBytes(c, events[k..]) <= c.maxBytes then k else DropUntilFits(c, events, k + 1)
  }

  /** How many events the hub drops, given all that are stored. */
  function TrimCount(c: Cache, events: seq<Event>): (n: nat)
    ensures n <= |events|
  {
    if c.maxBytes <= 0 || StoredBytes(c, events) <= c.maxBytes / 2 || CacheBytes(c, events) <= c.maxBytes then 0
    else DropUntilFits(c, events, DropToTarget(c, events, 0))
  }

  lemma {:induction false} LastToTarget(c: Cache, events: seq<Event>, k: nat)
    requires k <= |events|
    ensures var n := DropToTarget(c, events, k); n > k ==> StoredBytes(c, events[n - 1..]) > c.maxBytes / 3
    decreases |events| - k
  {
    hide StoredBytes;
    if DropToTarget(c, events, k) > k {
      LastToTarget(c, events, k + 1);
    }
  }

  lemma {:induction false} LastUntilFits(c: Cache, events: seq<Event>, k: nat)
    requires k <= |events|
    ensures var n := DropUntilFits(c, events, k); n > k ==> CacheBytes(c, events[n - 1..]) > c.maxBytes
    decreases |events| - k
  {
    hide CacheBytes;
    if DropUntilFits(c, events, k) > k {
      LastUntilFits(c, events, k + 1);
    }
  }

  /** Nothing is dropped from a cache within its size, and nothing once both
      rules are met: with the last event dropped, one of them was not. */
  lemma {:induction false} TrimsNoMore(c: Cache, events: seq<Event>)
    ensures var n := TrimCount(c, events);
            n > 0 ==>
              && CacheBytes(c, events) > c.maxBytes > 0
              && (StoredBytes(c, events[n - 1..]) > c.maxBytes / 3 || CacheBytes(c, events[n - 1..]) > c.maxBytes)
  {
    hide StoredBytes, CacheBytes, DropToTarget, DropUntilFits;
    LastToTarget(c, events, 0);
    LastUntilFits(c, events, DropToTarget(c, events, 0));
  }

  /** The hub's two loops over the stored events, keeping count of their bytes. */
  method TrimLocked(c: Cache, stored: seq<Event>) returns (events: seq<Event>)
    ensures events == stored[TrimCount(c, stored)..]
    ensures c.maxBytes <= 0 || events == [] || StoredBytes(c, events) <= c.maxBytes / 2
        || CacheBytes(c, events) <= c.maxBytes
    ensures |events| < |stored| ==>
        var last := stored[|stored| - |events| - 1..];
        && CacheBytes(c, stored) > c.maxBytes
        && (StoredBytes(c, last) > c.maxBytes / 3 || CacheBytes(c, last) > c.maxBytes)
  {
    TrimsNoMore(c, stored);
    hide DropToTarget, DropUntilFits, StoredBytes;
    events := stored;
    var bytes := CountBytes(c, stored);
    if c.maxBytes <= 0 || bytes <= c.maxBytes / 2 {
      return;
    }
    if bytes + c.output(events) <= c.maxBytes {
      return;
    }
    var k := 0;
    while bytes > c.maxBytes / 3 && k < |stored|
      invariant 0 <= k <= |stored| && bytes == StoredBytes(c, stored[k..])
      invariant DropToTarget(c, stored, 0) == DropToTarget(c, stored, k)
    {
      DropStep(c, stored, k);
      bytes := bytes - c.size(stored[k]);
      k := k + 1;
    }
    DropEnds(c, stored, k);
    while bytes + c.output(stored[k..]) > c.maxBytes && k < |stored|
      invariant 0 <= k <= |stored| && bytes == StoredBytes(c, stored[k..])
      invariant TrimCount(c, stored) == DropUntilFits(c, stored, k)
      decreases |stored| - k
    {
      DropStep(c, stored, k);
      bytes := bytes - c.size(stored[k]);
      k := k + 1;
    }
    DropEnds(c, stored, k);
    events := stored[k..];
  }

  lemma {:induction false} DropStep(c: Cache, events: seq<Event>, k: nat)
    requires k < |events|
    ensures StoredBytes(c, events[k..]) == c.size(events[k]) + StoredBytes(c, events[k + 1..])
    ensures StoredBytes(c, events[k..]) > c.maxBytes / 3 ==>
        DropToTarget(c, events, k) == DropToTarget(c, events, k + 1)
    ensures CacheBytes(c, events[k..]) > c.maxBytes ==> DropUntilFits(c, events, k) == DropUntilFits(c, events, k + 1)
  {
    assert events[k..][1..] == events[k + 1..];
  }

  lemma {:induction false} DropEnds(c: Cache, events: seq<Event>, k: nat)
    requires k <= |events|
    ensures k == |events| || StoredBytes(c, events[k..]) <= c.maxBytes / 3 ==> DropToTarget(c, events, k) == k
    ensures k == |events| || CacheBytes(c, events[k..]) <= c.maxBytes ==> DropUntilFits(c, events, k) == k
  {
    hide StoredBytes;
  }

  /** The hub adds the sizes up as events come in. */
  method CountBytes(c: Cache, events: seq<Event>) returns (bytes: nat)
    ensures bytes == StoredBytes(c, events)
  {
    bytes := 0;
    var k := |events|;
    assert events[k..] == [];
    while k > 0
      invariant 0 <= k <= |events| && bytes == StoredBytes(c, events[k..])
    {
      k := k - 1;
      assert events[k..][1..] == events[k + 1..];
      bytes := c.size(events[k]) + bytes;
    }
    assert events[0..] == events;
  }

  /** Every trim of the run is the one the rule asks for. */
  predicate Follows(c: Cache, states: seq<State>, steps: seq<Step>)
    requires IsRun(states, steps)
  {
    forall i | 0 <= i < |steps| && steps[i].Record? ::
      steps[i].trim == TrimCount(c, Stored(states[i].hub, steps[i]))
  }

  /** What is stored once a step has recorded its event. */
  function Stored(h: Hub, step: Step): seq<Event>
    requires HubOk(h) && step.Record?
  {
    h.hist[h.base..] + [Event(|h.hist| + 1, step.isOutput, step.data)]
  }

  // ----- Two runs -----

  /** A thousand bytes, forty of them around each event's text and a hundred for
      the rebuilt output. */
  const CACHE: Cache := Cache(1000, (e: Event) => 40 + |e.data|, (events: seq<Event>) => 100)

  const LONG := Event(1, false, Letters(860))
  const SHORT := Event(2, false, Letters(160))
  const HUGE := Event(1, false, Letters(1000))

  /** The hub does not always admit to a loss: by its own rule it drops the first
      of two events that are no output, and a client at the start is led straight
      to the second. */
  lemma {:induction false} SilentTrimLeavesAHole() returns (states: seq<State>, steps: seq<Step>)
    ensures IsRun(states, steps) && Follows(CACHE, states, steps) && |steps| == 3
    ensures Position(states[3]) == Hole && states[3].sub.written == [Sent(SHORT)]
  {
    hide After, Enabled, HubOk, Position, FollowAll, Cursors, TrimCount, Stored;
    var s1 := State(Hub([LONG], 0, true, false), INIT.sub);
    var s2 := State(Hub([LONG, SHORT], 1, true, false), INIT.sub);
    SilentRecords();
    TwoStored();
    SilentOpen(s2.hub);
    SilentStart(s2);
    states := [INIT, s1, s2, After(s2, Open(0))];
    steps := [Record(false, LONG.data, 0), Record(false, SHORT.data, 1), Open(0)];
  }

  lemma {:induction false} SilentRecords()
    ensures var s1 := State(Hub([LONG], 0, true, false), INIT.sub);
            var s2 := State(Hub([LONG, SHORT], 1, true, false), INIT.sub);
            var a, b := Record(false, LONG.data, 0), Record(false, SHORT.data, 1);
            && HubOk(INIT.hub) && Enabled(INIT, a) && After(INIT, a) == s1 && Stored(INIT.hub, a) == [LONG]
            && HubOk(s1.hub) && Enabled(s1, b) && After(s1, b) == s2 && Stored(s1.hub, b) == [LONG, SHORT]
            && HubOk(s2.hub) && Enabled(s2, Open(0))
  {
    hide Opened, AfterSignal, Look;
    assert [] + [LONG] == [LONG] && [LONG] + [SHORT] == [LONG, SHORT];
    assert [LONG][0..] == [LONG];
  }

  lemma {:induction false} TwoStored()
    ensures TrimCount(CACHE, [LONG]) == 0 && TrimCount(CACHE, [LONG, SHORT]) == 1
  {
    hide DropToTarget, DropUntilFits;
    var a, b := LONG, SHORT;
    DropStep(CACHE, [a], 0);
    DropStep(CACHE, [a, b], 0);
    DropStep(CACHE, [a, b], 1);
    DropEnds(CACHE, [a, b], 1);
    assert [a][1..] == [] && [a, b][2..] == [] && StoredBytes(CACHE, []) == 0;
    assert [a][0..] == [a] && [a, b][0..] == [a, b];
  }

  lemma {:induction false} SilentStart(s: State)
    requires HubOk(s.hub) && Enabled(s, Open(0))
    ensures After(s, Open(0)).sub.written == Opened(Look(s.hub, 0), 0).0
    ensures Position(After(s, Open(0))) == FollowAll(At(0), Opened(Look(s.hub, 0), 0).0)
  {
    hide Opened, Look, FollowAll, AfterSignal;
  }

  lemma {:induction false} SilentOpen(h: Hub)
    requires HubOk(h) && h.base == 1 && |h.hist| == 2 && !h.hist[0].isOutput
    ensures Opened(Look(h, 0), 0) == ([Sent(h.hist[1])], 2)
    ensures FollowAll(At(0), [Sent(h.hist[1])]) == Hole
  {
    hide Look, Response, Next, FollowAll, EventsAfterCursor;
    OpenedIsResponse(h, 0);
    TailResponse(h, 0);
    LookFacts(h, 0);
    assert h.hist[1..] == [h.hist[1]] && [h.hist[1]][1..] == [];
    assert SentAll([]) == [] && SentAll(h.hist[1..]) == [Sent(h.hist[1])];
  }

  /** Nor does a client always catch up where it meets no hole: a run whose only
      event is larger than the cache ends with an empty log, and a client that
      opens it then is told nothing. */
  lemma {:induction false} EmptiedLogTellsNothing() returns (states: seq<State>, steps: seq<Step>)
    ensures IsRun(states, steps) && Follows(CACHE, states, steps) && |steps| == 3
    ensures var s := states[3];
            && s.sub.phase == Drained && s.sub.written == [] && Position(s) == At(0)
            && s.sub.cursor < |s.hub.hist| && FoundNothing(states[2], steps[2])
  {
    hide After, Enabled, HubOk, Position, FollowAll, Cursors, TrimCount, Stored, FoundNothing;
    var s1 := State(Hub([HUGE], 1, true, false), INIT.sub);
    var s2 := State(Hub([HUGE], 1, false, false), INIT.sub);
    EmptiedRecords();
    OneStored();
    EmptiedOpen(s2);
    states := [INIT, s1, s2, After(s2, Open(0))];
    steps := [Record(false, HUGE.data, 1), Finish, Open(0)];
  }

  lemma {:induction false} EmptiedRecords()
    ensures var s1 := State(Hub([HUGE], 1, true, false), INIT.sub);
            var s2 := State(Hub([HUGE], 1, false, false), INIT.sub);
            var a := Record(false, HUGE.data, 1);
            && HubOk(INIT.hub) && Enabled(INIT, a) && After(INIT, a) == s1 && Stored(INIT.hub, a) == [HUGE]
            && HubOk(s1.hub) && Enabled(s1, Finish) && After(s1, Finish) == s2
            && HubOk(s2.hub) && Enabled(s2, Open(0))
  {
    hide Opened, AfterSignal, Look;
    assert [] + [HUGE] == [HUGE];
  }

  lemma {:induction false} OneStored()
    ensures TrimCount(CACHE, [HUGE]) == 1
  {
    hide DropToTarget, DropUntilFits;
    var a := HUGE;
    DropStep(CACHE, [a], 0);
    DropEnds(CACHE, [a], 1);
    assert [a][1..] == [] && StoredBytes(CACHE, []) == 0 && [a][0..] == [a];
  }

  lemma {:induction false} EmptiedOpen(s: State)
    requires HubOk(s.hub) && Enabled(s, Open(0)) && !s.hub.running
    requires s.hub.base == 1 && |s.hub.hist| == 1 && !s.hub.hist[0].isOutput
    ensures var t := After(s, Open(0));
            && t.sub.phase == Drained && t.sub.written == [] && t.sub.cursor == 0 && Position(t) == At(0)
              && t.hub == s.hub
            && FoundNothing(s, Open(0))
  {
    hide Look, Response, Next, EventsAfterCursor;
    OpenedIsResponse(s.hub, 0);
    TailResponse(s.hub, 0);
    NothingSent(s.hub, 0);
  }
}
