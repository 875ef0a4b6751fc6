/** Consuming one assistant event: what is streamed to the client while the
    model talks, and what is kept of it afterwards. */
module StreamOutput {
  import opened Sequences
  import opened Text
  import TS = ThinkSplit
  import RO = RunOutput

  datatype Chunk = Chunk(reasoning: string, content: string)

  /** One successful receive: a chunk, or none, and whether the context is done
      by the time the reader looks at it. */
  datatype Frame = Frame(chunk: Option<Chunk>, canceled: bool)

  /** What ends a stream that is read to its end, and the context then. */
  datatype Ending = EndOfStream(canceled: bool) | Failed(willRetry: bool, canceled: bool)

  datatype Failure = Retried | Broken | ContextDone | Unjoined

  /** The chunks the reader hands out: those before the first that finds the
      context done. */
  function Handed(frames: seq<Frame>): seq<Chunk>
  {
    if frames == [] then []
    else if frames[0].chunk.None? then Handed(frames[1..])
    else if frames[0].canceled then []
    else [frames[0].chunk.value] + Handed(frames[1..])
  }

  /** That one is kept as well, but nobody sees it. */
  function Unseen(frames: seq<Frame>): Option<Chunk>
  {
    if frames == [] then None
    else if frames[0].chunk.Some? && frames[0].canceled then frames[0].chunk
    else Unseen(frames[1..])
  }

  /** What the kept message is joined from. */
  function Kept(frames: seq<Frame>): seq<Chunk>
  {
    Handed(frames) + if Unseen(frames).Some? then [Unseen(frames).value] else []
  }

  /** What the reader reports: chunks that do not join come before everything,
      a context that is done before the stream's own error. */
  function Verdict(frames: seq<Frame>, ending: Ending, joins: seq<Chunk> -> bool): Option<Failure>
  {
    if Kept(frames) != [] && !joins(Kept(frames)) then Some(Unjoined)
    else if Unseen(frames).Some? || ending.canceled then Some(ContextDone)
    else if ending.Failed? then Some(if ending.willRetry then Retried else Broken)
    else None
  }

  /** The persisted message; its fields are overwritten by the strip. */
  class AssistantMessage {
    var content: string
    var reasoning: string

    constructor (content: string, reasoning: string)
      ensures this.content == content && this.reasoning == reasoning
    {
      this.content, this.reasoning := content, reasoning;
    }

    /** Moves an inline leading think block out of the content. */
    method StripInlineThink()
      modifies this
      ensures content == StrippedContent(old(content))
      ensures reasoning == old(reasoning) + StrippedThinking(old(content))
      ensures StoresAll(old(content), old(reasoning), content, reasoning)
    {
      StripStoresAll(content, reasoning);
      if content == "" {
        return;
      }
      var c, t := TS.SplitThinkContent(content);
      if t == "" {
        return;
      }
      content := c;
      if reasoning == "" {
        reasoning := t;
      } else {
        reasoning := reasoning + t;
      }
    }
  }

  function StrippedContent(full: string): string
  {
    if TS.Split(full).thinking == "" then full else TS.Split(full).content
  }

  function StrippedThinking(full: string): string
  {
    TS.Split(full).thinking
  }

  /** The text opens with a block of that thinking, and goes on with the content
      if the block is closed. */
  predicate Opens(full: string, thinking: string, content: string)
  {
    && thinking != ""
    && (|| (TS.TrimLeft(full) == TS.OPEN + thinking && content == "")
        || TS.TrimLeft(full) == TS.OPEN + thinking + TS.CLOSE + content)
  }

  /** A stored message has all of its text: in the content, or, but for the tags
      and the blanks before them, in content and thinking behind the reasoning. */
  ghost predicate StoresAll(full: string, reasoning: string, content: string, thinking: string)
  {
    || (content == full && thinking == reasoning)
    || exists block :: Opens(full, block, content) && thinking == reasoning + block
  }

  lemma {:induction false} StripStoresAll(full: string, reasoning: string)
    ensures StoresAll(full, reasoning, StrippedContent(full), reasoning + StrippedThinking(full))
  {
    hide TS.Split, TS.TrimLeft, TS.Index;
    var split := TS.Split(full);
    TS.SplitOther(full);
    if split.thinking == "" {
      assert reasoning + "" == reasoning;
    } else {
      assert Opens(full, split.thinking, split.content);
    }
  }

  function Contents(chunks: seq<Chunk>): string
  {
    if chunks == [] then "" else Contents(chunks[..|chunks| - 1]) + chunks[|chunks| - 1].content
  }

  function Reasonings(chunks: seq<Chunk>): string
  {
    if chunks == [] then "" else Reasonings(chunks[..|chunks| - 1]) + chunks[|chunks| - 1].reasoning
  }

  /** x interleaves a and b. */
  predicate Shuffle(x: string, a: string, b: string)
  {
    if x == "" then a == "" && b == ""
    else
      var c := x[|x| - 1];
      || (a != "" && a[|a| - 1] == c && Shuffle(x[..|x| - 1], a[..|a| - 1], b))
      || (b != "" && b[|b| - 1] == c && Shuffle(x[..|x| - 1], a, b[..|b| - 1]))
  }

  lemma {:induction false} ShuffleLeft(x: string, a: string, b: string, d: string)
    requires Shuffle(x, a, b)
    ensures Shuffle(x + d, a + d, b)
  {
    if d == "" {
      assert x + d == x && a + d == a;
    } else {
      ShuffleLeft(x, a, b, d[..|d| - 1]);
      assert (x + d)[..|x + d| - 1] == x + d[..|d| - 1] && (a + d)[..|a + d| - 1] == a + d[..|d| - 1];
    }
  }

  lemma {:induction false} ShuffleRight(x: string, a: string, b: string, d: string)
    requires Shuffle(x, a, b)
    ensures Shuffle(x + d, a, b + d)
  {
    if d == "" {
      assert x + d == x && b + d == b;
    } else {
      ShuffleRight(x, a, b, d[..|d| - 1]);
      assert (x + d)[..|x + d| - 1] == x + d[..|d| - 1] && (b + d)[..|b + d| - 1] == b + d[..|d| - 1];
    }
  }

  /** An interleaving loses nothing, and of one text alone it is that text. */
  lemma {:induction false} ShuffleFacts(x: string, a: string, b: string)
    requires Shuffle(x, a, b)
    ensures |x| == |a| + |b| && (a == "" ==> x == b) && (b == "" ==> x == a)
  {
    if x != "" {
      var c := x[|x| - 1];
      if a != "" && a[|a| - 1] == c && Shuffle(x[..|x| - 1], a[..|a| - 1], b) {
        ShuffleFacts(x[..|x| - 1], a[..|a| - 1], b);
      } else {
        ShuffleFacts(x[..|x| - 1], a, b[..|b| - 1]);
      }
    }
  }

  /** With one kind of thinking only, the channel carries what is stored; with
      both, the same characters in the order of their arrival. */
  lemma {:induction false} StreamedThinkingIsStored(x: string, reasoning: string, thinking: string)
    requires Shuffle(x, reasoning, thinking)
    ensures |x| == |reasoning + thinking|
    ensures reasoning == "" || thinking == "" ==> x == reasoning + thinking
  {
    ShuffleFacts(x, reasoning, thinking);
  }

  /** What is streamed of the two kinds of thinking in a text is what is stored. */
  lemma {:induction false} ThinkingIsKept(x: string, reasoning: string, full: string)
    requires Shuffle(x, reasoning, TS.Split(full).thinking)
    ensures var stored := reasoning + StrippedThinking(full);
            && |x| == |stored| && (reasoning == "" || stored == reasoning ==> x == stored)
  {
    hide Shuffle, TS.Split;
    var t := TS.Split(full).thinking;
    StreamedThinkingIsStored(x, reasoning, t);
    if reasoning + t == reasoning {
      assert |t| == 0;
    }
  }

  /** The counters, the splitter and the events of one model attempt. */
  class Attempt {
    const splitter: TS.ThinkSplitter
    var contentRunes: nat
    var thinkingRunes: nat
    var events: seq<RO.Event>
    ghost var reasoning: string

    ghost predicate Counted()
      reads this
    {
      && RO.OnlyDeltas(events)
      && contentRunes == |RO.ContentOf(events)| && thinkingRunes == |RO.ThinkingOf(events)|
    }

    ghost predicate Valid()
      reads this, splitter
    {
      && Counted() && splitter.Valid()
      && RO.ContentOf(events) == splitter.emitted.content
      && Shuffle(RO.ThinkingOf(events), reasoning, splitter.emitted.thinking)
    }

    constructor ()
      ensures Valid() && fresh(splitter) && events == [] && reasoning == "" && splitter.consumed == ""
    {
      splitter := new TS.ThinkSplitter();
      contentRunes, thinkingRunes, events, reasoning := 0, 0, [], "";
    }

    method EmitDelta(e: RO.Event)
      requires Counted() && !e.AttemptReset?
      modifies this`events, this`contentRunes, this`thinkingRunes
      ensures Counted() && events == old(events) + [e]
      ensures RO.ContentOf(events) == old(RO.ContentOf(events)) + RO.ContentPart(e)
      ensures RO.ThinkingOf(events) == old(RO.ThinkingOf(events)) + RO.ThinkingPart(e)
    {
      match e {
        case ContentDelta(d) => contentRunes := contentRunes + |d|;
        case ThinkingDelta(d) => thinkingRunes := thinkingRunes + |d|;
      }
      events := events + [e];
      assert events[..|events| - 1] == old(events);
    }

    /** Emits the two parts of a split, each only if it is not empty. */
    method EmitParts(content: string, thinking: string)
      requires Counted()
      modifies this`events, this`contentRunes, this`thinkingRunes
      ensures Counted()
      ensures RO.ContentOf(events) == old(RO.ContentOf(events)) + content
      ensures RO.ThinkingOf(events) == old(RO.ThinkingOf(events)) + thinking
    {
      hide RO.ContentOf, RO.ThinkingOf, Counted;
      if thinking != "" {
        EmitDelta(RO.ThinkingDelta(thinking));
      }
      if content != "" {
        EmitDelta(RO.ContentDelta(content));
      }
    }

    method EmitReasoning(delta: string)
      requires Valid()
      modifies this
      ensures Valid() && reasoning == old(reasoning) + delta && splitter.consumed == old(splitter.consumed)
    {
      if delta != "" {
        ShuffleLeft(RO.ThinkingOf(events), reasoning, splitter.emitted.thinking, delta);
        EmitDelta(RO.ThinkingDelta(delta));
        reasoning := reasoning + delta;
      }
    }

    method EmitContent(delta: string)
      requires Valid()
      modifies this, splitter
      ensures Valid() && reasoning == old(reasoning) && splitter.consumed == old(splitter.consumed) + delta
    {
      hide Shuffle, RO.ContentOf, RO.ThinkingOf;
      if delta == "" {
        return;
      }
      ghost var before := splitter.emitted;
      var c, t := splitter.Feed(delta);
      ShuffleRight(RO.ThinkingOf(events), reasoning, before.thinking, t);
      EmitParts(c, t);
    }

    /** After the last chunk: the streamed content is the whole text's content
        part, and the streamed thinking has both kinds of thinking. */
    method FlushContent()
      requires Valid()
      modifies this, splitter
      ensures Counted() && reasoning == old(reasoning)
      ensures RO.ContentOf(events) == TS.Split(old(splitter.consumed)).content
      ensures Shuffle(RO.ThinkingOf(events), reasoning, TS.Split(old(splitter.consumed)).thinking)
    {
      hide Shuffle, RO.ContentOf, RO.ThinkingOf, TS.Split;
      ghost var before := splitter.emitted;
      var c, t := splitter.Flush();
      ShuffleRight(RO.ThinkingOf(events), reasoning, before.thinking, t);
      EmitParts(c, t);
    }
  }

  lemma {:induction false} ContentsSnoc(chunks: seq<Chunk>, c: Chunk)
    ensures Contents(chunks + [c]) == Contents(chunks) + c.content
    ensures Reasonings(chunks + [c]) == Reasonings(chunks) + c.reasoning
  {
    assert (chunks + [c])[..|chunks|] == chunks;
  }

  /** One turn of the reader. */
  lemma {:induction false} HandedStep(frames: seq<Frame>, i: nat)
    requires i < |frames|
    ensures var f, rest := frames[i], frames[i + 1..];
            if f.chunk.None? then Handed(frames[i..]) == Handed(rest) && Unseen(frames[i..]) == Unseen(rest)
            else if f.canceled then Handed(frames[i..]) == [] && Unseen(frames[i..]) == f.chunk
            else Handed(frames[i..]) == [f.chunk.value] + Handed(rest) && Unseen(frames[i..]) == Unseen(rest)
  {
    assert frames[i..][1..] == frames[i + 1..];
  }

  /** Reads a stream and hands its chunks to the attempt. Whether chunks join to
      one message is the message library's answer; if they do, its two texts are
      the concatenations of theirs. */
  method Consume(a: Attempt, frames: seq<Frame>, ending: Ending, joins: seq<Chunk> -> bool)
    returns (full: AssistantMessage?, error: Option<Failure>)
    requires a.Valid() && a.reasoning == "" && a.splitter.consumed == ""
    modifies a, a.splitter
    ensures a.Valid() && a.splitter.consumed == Contents(Handed(frames)) && a.reasoning == Reasonings(Handed(frames))
    ensures error == Verdict(frames, ending, joins)
    ensures full != null <==> Kept(frames) != [] && joins(Kept(frames))
    ensures full != null ==>
              fresh(full) && full.content == Contents(Kept(frames)) && full.reasoning == Reasonings(Kept(frames))
  {
    hide Contents, Reasonings, Handed, Unseen;
    var chunks, i, done := [], 0, false;
    NoChunks();
    assert frames[0..] == frames && [] + Handed(frames) == Handed(frames);
    while i < |frames| && !done
      invariant 0 <= i <= |frames| && a.Valid()
      invariant !done ==> Handed(frames) == chunks + Handed(frames[i..]) && Unseen(frames) == Unseen(frames[i..])
      invariant done ==> Unseen(frames).Some? && chunks == Kept(frames)
      invariant a.splitter.consumed == Contents(if done then Handed(frames) else chunks)
      invariant a.reasoning == Reasonings(if done then Handed(frames) else chunks)
      decreases |frames| - i, !done
    {
      HandedStep(frames, i);
      var frame := frames[i];
      i := i + 1;
      if frame.chunk.Some? {
        var chunk := frame.chunk.value;
        ghost var before := chunks;
        chunks := chunks + [chunk];
        if frame.canceled {
          assert before + [] == before;
          done := true;
        } else {
          Assoc(before, [chunk], Handed(frames[i..]));
          ContentsSnoc(before, chunk);
          a.EmitReasoning(chunk.reasoning);
          a.EmitContent(chunk.content);
        }
      }
    }
    if !done {
      assert frames[i..] == [] && chunks + [] == chunks;
      NoChunks();
    }
    assert chunks == Kept(frames) && (done <==> Unseen(frames).Some?);
    full := null;
    if chunks != [] {
      if !joins(chunks) {
        return null, Some(Unjoined);
      }
      var content, reasoning := JoinTexts(chunks);
      full := new AssistantMessage(content, reasoning);
    }
    if done || ending.canceled {
      error := Some(ContextDone);
    } else if ending.Failed? {
      error := Some(if ending.willRetry then Retried else Broken);
    } else {
      error := None;
    }
  }

  lemma {:induction false} NoChunks()
    ensures Handed([]) == [] && Unseen([]) == None && Contents([]) == "" && Reasonings([]) == ""
  {
  }

  method JoinTexts(chunks: seq<Chunk>) returns (content: string, reasoning: string)
    ensures content == Contents(chunks) && reasoning == Reasonings(chunks)
  {
    content, reasoning := "", "";
    for k := 0 to |chunks|
      invariant content == Contents(chunks[..k]) && reasoning == Reasonings(chunks[..k])
    {
      assert chunks[..k + 1][..k] == chunks[..k];
      content, reasoning := content + chunks[k].content, reasoning + chunks[k].reasoning;
    }
    assert chunks[..|chunks|] == chunks;
  }

  /** One streamed attempt. A stream that will be retried ends in a reset that
      carries the runes emitted so far; otherwise the held-back text is flushed
      and the message, if there is one, is stripped and kept. The client has the
      chunks that were handed out, the store one more if the context was done
      when it came. What the two kinds of thinking give is interleaved on the
      thinking channel. */
  method ConsumeStream(frames: seq<Frame>, ending: Ending, joins: seq<Chunk> -> bool)
    returns (events: seq<RO.Event>, persisted: Option<RO.Output>, error: Option<Failure>, ghost deltas: seq<RO.Event>,
             ghost split: TS.Parts)
    ensures RO.OnlyDeltas(deltas) && RO.ContentOf(deltas) == split.content
    ensures Shuffle(RO.ThinkingOf(deltas), Reasonings(Handed(frames)), split.thinking)
    ensures Verdict(frames, ending, joins) == Some(Retried) ==>
              persisted == None && error == None && events == WithReset(deltas)
              && TS.Streamed(Contents(Handed(frames)), split)
              && forall o: RO.Output | RO.Tidy(o.segments) :: RO.ApplyAll(o, events) == o
    ensures Verdict(frames, ending, joins) != Some(Retried) ==>
              events == deltas && split == TS.Split(Contents(Handed(frames))) && error == Verdict(frames, ending, joins)
              && (persisted.Some? <==> Kept(frames) != [] && joins(Kept(frames)))
    ensures persisted.Some? ==>
              && persisted.value.content == StrippedContent(Contents(Kept(frames)))
              && persisted.value.thinking == Reasonings(Kept(frames)) + StrippedThinking(Contents(Kept(frames)))
              && (RO.ContentOf(events) == persisted.value.content
                  <==> StoredAsSeen(Contents(Handed(frames)), UnseenContent(frames)))
    ensures persisted.Some? ==>
              StoresAll(Contents(Kept(frames)), Reasonings(Kept(frames)), persisted.value.content,
                        persisted.value.thinking)
    ensures persisted.Some? && Unseen(frames) == None ==>
              && |RO.ThinkingOf(events)| == |persisted.value.thinking|
              && (Reasonings(Kept(frames)) == "" || persisted.value.thinking == Reasonings(Kept(frames)) ==>
                RO.ThinkingOf(events) == persisted.value.thinking)
  {
    hide Handed, Unseen, Contents, Reasonings, Verdict, TS.Streamed, TS.Split, StoredAsSeen, Shuffle, StoresAll,
        RO.ContentOf, RO.ThinkingOf, RO.OnlyDeltas, WithReset, RO.ApplyAll;
    var a := new Attempt();
    var full, err := Consume(a, frames, ending, joins);
    persisted := None;
    assert a.Counted();
    if err == Some(Retried) {
      events, deltas, split, error := a.events, a.events, a.splitter.emitted, None;
      Resettable(a.splitter.consumed, a.splitter.mode, a.splitter.pending, split, deltas);
      if a.contentRunes != 0 || a.thinkingRunes != 0 {
        events := events + [RO.AttemptReset(a.contentRunes, a.thinkingRunes)];
      }
      WithResetIs(deltas);
      return;
    }
    a.FlushContent();
    events, deltas, split, error := a.events, a.events, TS.Split(Contents(Handed(frames))), err;
    if full != null {
      full.StripInlineThink();
      persisted := Some(RO.Output(full.content, full.reasoning, []));
      KeptContent(frames);
      StreamedContentIsStored(Contents(Handed(frames)), UnseenContent(frames));
      if Unseen(frames) == None {
        assert Handed(frames) + [] == Handed(frames);
        ThinkingIsKept(RO.ThinkingOf(events), Reasonings(Kept(frames)), Contents(Kept(frames)));
      }
    }
  }

  lemma {:induction false} Resettable(s: string, mode: TS.Mode, pending: string, out: TS.Parts, deltas: seq<RO.Event>)
    requires TS.Consumed(s, mode, pending, out) && RO.OnlyDeltas(deltas)
    ensures TS.Streamed(s, out)
    ensures forall o: RO.Output | RO.Tidy(o.segments) :: RO.ApplyAll(o, WithReset(deltas)) == o
  {
    TS.ConsumedIsStreamed(s, mode, pending, out);
    forall o: RO.Output | RO.Tidy(o.segments)
      ensures RO.ApplyAll(o, WithReset(deltas)) == o
    {
      RetryLeavesNoTrace(o, deltas);
    }
  }

  lemma {:induction false} WithResetIs(deltas: seq<RO.Event>)
    ensures var c, t := |RO.ContentOf(deltas)|, |RO.ThinkingOf(deltas)|;
            WithReset(deltas) == if c == 0 && t == 0 then deltas else deltas + [RO.AttemptReset(c, t)]
  {
  }

  function UnseenContent(frames: seq<Frame>): string
  {
    if Unseen(frames).Some? then Unseen(frames).value.content else ""
  }

  lemma {:induction false} KeptContent(frames: seq<Frame>)
    ensures Contents(Kept(frames)) == Contents(Handed(frames)) + UnseenContent(frames)
  {
    hide Handed, Unseen, Contents, Reasonings;
    if Unseen(frames).Some? {
      ContentsSnoc(Handed(frames), Unseen(frames).value);
    } else {
      assert Handed(frames) + [] == Handed(frames);
    }
  }

  /** The store has the content the client saw. With nothing unseen, the text
      must not open with an empty block. Content that was not seen must all have
      gone into a block, one that was still open or may still have been opened,
      and what follows that block must be what was taken for content so far:
      nothing, or the blanks and the part of a tag that were flushed. */
  predicate StoredAsSeen(seen: string, unseen: string)
  {
    var full := TS.Split(seen + unseen);
    if unseen == "" then full.thinking != "" || !(TS.OPEN <= TS.TrimLeft(seen))
    else !TS.Settled(seen) && full.thinking != "" && full.content == if TS.Undecided(seen) then seen else ""
  }

  /** Client and store agree exactly then. An opening tag whose block holds
      nothing is cut out of the stream but left in the stored text. */
  lemma {:induction false} StreamedContentIsStored(seen: string, unseen: string)
    ensures TS.Split(seen).content == StrippedContent(seen + unseen) <==> StoredAsSeen(seen, unseen)
  {
    hide TS.Index, TS.TrimLeft;
    TS.SplitOther(seen);
    if unseen == "" {
      assert seen + unseen == seen;
    } else if TS.Settled(seen) {
      TS.SettledAppend(seen, unseen);
    } else if !TS.Undecided(seen) {
      assert StrippedContent(seen + unseen) == seen + unseen ==> StrippedContent(seen + unseen) != "";
    }
  }

  /** A context done before the second chunk is looked at: the client has the
      first, the store both. */
  lemma {:induction false} CanceledStreamDiffers()
    ensures var frames := [Frame(Some(Chunk("", "a")), false), Frame(Some(Chunk("", "b")), true)];
            && TS.Split(Contents(Handed(frames))).content == "a"
            && StrippedContent(Contents(Kept(frames))) == "ab"
  {
    var frames := [Frame(Some(Chunk("", "a")), false), Frame(Some(Chunk("", "b")), true)];
    assert frames[1..] == [frames[1]];
    assert Handed(frames) == [Chunk("", "a")] && Unseen(frames) == Some(Chunk("", "b"));
    ContentsSnoc([], Chunk("", "a"));
    assert [] + [Chunk("", "a")] == [Chunk("", "a")];
    KeptContent(frames);
    NoOpenTag("a");
    NoOpenTag("ab");
  }

  lemma {:induction false} NoOpenTag(s: string)
    requires s != "" && !TS.IsBlank(s[0]) && s[0] != TS.OPEN[0]
    ensures TS.Split(s) == TS.Parts(s, "")
  {
    assert TS.TrimLeft(s)[0] != TS.OPEN[0];
  }

  lemma {:induction false} EmptyBlockDiffers()
    ensures TS.Split("<think></think>hi").content == "hi"
    ensures StrippedContent("<think></think>hi") == "<think></think>hi"
  {
    assert TS.Index("", TS.CLOSE) < 0;
    TS.SplitBlock("", "", "hi");
    assert "" + (TS.OPEN + ("" + (TS.CLOSE + "hi"))) == "<think></think>hi";
  }

  function WithReset(deltas: seq<RO.Event>): seq<RO.Event>
  {
    var c, t := |RO.ContentOf(deltas)|, |RO.ThinkingOf(deltas)|;
    if c == 0 && t == 0 then deltas else deltas + [RO.AttemptReset(c, t)]
  }

  /** A retried attempt leaves no trace in the run's live output. */
  lemma {:induction false} RetryLeavesNoTrace(o: RO.Output, deltas: seq<RO.Event>)
    requires RO.Tidy(o.segments) && RO.OnlyDeltas(deltas)
    ensures RO.ApplyAll(o, WithReset(deltas)) == o
  {
    hide RO.TrimSegments;
    var c, t := |RO.ContentOf(deltas)|, |RO.ThinkingOf(deltas)|;
    var after := RO.ApplyAll(o, deltas);
    RO.ResetUndoesAttempt(o, deltas);
    if c == 0 && t == 0 {
      RO.OutputsAreTidy(o, deltas);
      RO.NothingToTrim(after);
      RO.TrimSuffix(after.content, "");
      RO.TrimSuffix(after.thinking, "");
      assert after.content + "" == after.content && after.thinking + "" == after.thinking;
    } else {
      assert (deltas + [RO.AttemptReset(c, t)])[..|deltas|] == deltas;
    }
  }
}
