/** The live output of a run as the run hub rebuilds it from streamed events,
    and the reset that takes back what one model attempt had streamed. */
module RunOutput {
  import opened Sequences
  import opened Text

  datatype Event =
    | ContentDelta(delta: string)
    | ThinkingDelta(delta: string)
    | AttemptReset(contentRunes: nat, thinkingRunes: nat)

  datatype Segment =
    | TextSegment(content: string, thinking: string)
    | ToolSegment(callIds: seq<string>)

  datatype Output = Output(content: string, thinking: string, segments: seq<Segment>)

  function TrimTrailingRunes(value: string, count: nat): string
  {
    if count >= |value| then "" else value[..|value| - count]
  }

  function ContentPart(e: Event): string { if e.ContentDelta? then e.delta else "" }

  function ThinkingPart(e: Event): string { if e.ThinkingDelta? then e.delta else "" }

  /** A delta extends the newest segment if that holds text of its kind only. */
  predicate Continues(last: Segment, e: Event)
    requires !e.AttemptReset?
  {
    last.TextSegment? && if e.ContentDelta? then last.thinking == "" else last.content == ""
  }

  function Append(segments: seq<Segment>, e: Event): seq<Segment>
    requires !e.AttemptReset?
  {
    var n := |segments| - 1;
    if e.delta == "" then segments
    else if segments != [] && Continues(segments[n], e) then
      segments[..n] + [TextSegment(segments[n].content + ContentPart(e), segments[n].thinking + ThinkingPart(e))]
    else segments + [TextSegment(ContentPart(e), ThinkingPart(e))]
  }

  /** How many of the runes to take off a segment's two texts can give. */
  function ContentTaken(s: Segment, runes: nat): (n: nat)
    ensures n <= runes
  {
    if s.TextSegment? then Min(|s.content|, runes) else 0
  }

  function ThinkingTaken(s: Segment, runes: nat): (n: nat)
    ensures n <= runes
  {
    if s.TextSegment? then Min(|s.thinking|, runes) else 0
  }

  function TrimOne(s: Segment, contentRunes: nat, thinkingRunes: nat): Segment
  {
    if s.TextSegment? then
      TextSegment(TrimTrailingRunes(s.content, contentRunes), TrimTrailingRunes(s.thinking, thinkingRunes))
    else s
  }

  /** Takes runes off the text segments, newest first; tool segments stay. */
  function TrimBack(segments: seq<Segment>, contentRunes: nat, thinkingRunes: nat): (r: seq<Segment>)
    ensures |r| == |segments|
  {
    if segments == [] || (contentRunes == 0 && thinkingRunes == 0) then segments
    else
      var init, last := segments[..|segments| - 1], segments[|segments| - 1];
      TrimBack(init, contentRunes - ContentTaken(last, contentRunes),
               thinkingRunes - ThinkingTaken(last, thinkingRunes))
      + [TrimOne(last, contentRunes, thinkingRunes)]
  }

  predicate IsEmptyText(s: Segment)
  {
    s.TextSegment? && |s.content| == 0 && |s.thinking| == 0
  }

  function DropEmpty(segments: seq<Segment>): seq<Segment>
  {
    if segments == [] then []
    else
      var last := segments[|segments| - 1];
      DropEmpty(segments[..|segments| - 1]) + if IsEmptyText(last) then [] else [last]
  }

  function TrimSegments(segments: seq<Segment>, contentRunes: nat, thinkingRunes: nat): seq<Segment>
  {
    DropEmpty(TrimBack(segments, contentRunes, thinkingRunes))
  }

  /** The hub's loop: edits a copy from the newest segment down while runes
      remain to be taken off, then filters out what became empty. */
  method TrimRunSegments(segments: seq<Segment>, contentRunes: int, thinkingRunes: int) returns (filtered: seq<Segment>)
    ensures filtered == TrimSegments(segments, Max(contentRunes, 0), Max(thinkingRunes, 0))
  {
    hide TrimBack;
    var result := segments;
    var remainingContent := if contentRunes > 0 then contentRunes else 0;
    var remainingThinking := if thinkingRunes > 0 then thinkingRunes else 0;
    ghost var trimmed := TrimBack(segments, remainingContent, remainingThinking);
    var index := |result| - 1;
    assert result[..index + 1] == segments && result[index + 1..] == [];
    while index >= 0 && (remainingContent > 0 || remainingThinking > 0)
      invariant -1 <= index < |result| && remainingContent >= 0 && remainingThinking >= 0
      invariant trimmed == TrimBack(result[..index + 1], remainingContent, remainingThinking) + result[index + 1..]
    {
      TrimBackStep(result, index, remainingContent, remainingThinking);
      var segment := result[index];
      assert !segment.TextSegment? ==> result[index := segment] == result;
      if segment.TextSegment? {
        result := result[index := TrimOne(segment, remainingContent, remainingThinking)];
        remainingContent, remainingThinking :=
          remainingContent - ContentTaken(segment, remainingContent),
          remainingThinking - ThinkingTaken(segment, remainingThinking);
      }
      index := index - 1;
    }
    TrimBackDone(result[..index + 1], remainingContent, remainingThinking);
    assert result[..index + 1] + result[index + 1..] == result;
    filtered := FilterEmpty(result);
  }

  lemma {:induction false} TrimBackDone(segments: seq<Segment>, c: nat, t: nat)
    requires segments == [] || (c == 0 && t == 0)
    ensures TrimBack(segments, c, t) == segments
  {
  }

  /** One turn of that loop on the segment at index. */
  lemma {:induction false} TrimBackStep(result: seq<Segment>, index: nat, c: nat, t: nat)
    requires index < |result| && (c > 0 || t > 0)
    ensures var next := result[index := TrimOne(result[index], c, t)];
            TrimBack(result[..index + 1], c, t) + result[index + 1..]
            == TrimBack(next[..index], c - ContentTaken(result[index], c), t - ThinkingTaken(result[index], t))
                + next[index..]
  {
    var edited := TrimOne(result[index], c, t);
    var next := result[index := edited];
    assert result[..index + 1][..index] == result[..index] == next[..index];
    assert [edited] + result[index + 1..] == next[index..];
  }

  method FilterEmpty(result: seq<Segment>) returns (filtered: seq<Segment>)
    ensures filtered == DropEmpty(result)
  {
    filtered := [];
    for i := 0 to |result|
      invariant filtered == DropEmpty(result[..i])
    {
      assert result[..i + 1][..i] == result[..i];
      if !IsEmptyText(result[i]) {
        filtered := filtered + [result[i]];
      }
    }
    assert result[..|result|] == result;
  }

  function Apply(o: Output, e: Event): Output
  {
    match e
    case ContentDelta(d) => Output(o.content + d, o.thinking, Append(o.segments, e))
    case ThinkingDelta(d) => Output(o.content, o.thinking + d, Append(o.segments, e))
    case AttemptReset(c, t) =>
      Output(TrimTrailingRunes(o.content, c), TrimTrailingRunes(o.thinking, t), TrimSegments(o.segments, c, t))
  }

  function ApplyAll(o: Output, events: seq<Event>): Output
  {
    if events == [] then o else Apply(ApplyAll(o, events[..|events| - 1]), events[|events| - 1])
  }

  function ContentOf(events: seq<Event>): string
  {
    if events == [] then ""
    else ContentOf(events[..|events| - 1]) + ContentPart(events[|events| - 1])
  }

  function ThinkingOf(events: seq<Event>): string
  {
    if events == [] then ""
    else ThinkingOf(events[..|events| - 1]) + ThinkingPart(events[|events| - 1])
  }

  predicate OnlyDeltas(events: seq<Event>) { forall i | 0 <= i < |events| :: !events[i].AttemptReset? }

  /** No text segment is empty. */
  predicate Tidy(segments: seq<Segment>) { forall i | 0 <= i < |segments| :: !IsEmptyText(segments[i]) }

  lemma {:induction false} DropEmptyTidy(segments: seq<Segment>)
    requires Tidy(segments)
    ensures DropEmpty(segments) == segments
  {
    if segments != [] {
      DropEmptyTidy(segments[..|segments| - 1]);
    }
  }

  lemma {:induction false} DropEmptyIsTidy(segments: seq<Segment>)
    ensures Tidy(DropEmpty(segments))
  {
    if segments != [] {
      DropEmptyIsTidy(segments[..|segments| - 1]);
    }
  }

  function Kept(s: Segment): seq<Segment> { if IsEmptyText(s) then [] else [s] }

  /** Trimming and dropping in one pass from the newest segment on. */
  ghost function Trim(segments: seq<Segment>, c: nat, t: nat): seq<Segment>
  {
    if segments == [] then []
    else
      var last := segments[|segments| - 1];
      Trim(segments[..|segments| - 1], c - ContentTaken(last, c), t - ThinkingTaken(last, t))
          + Kept(TrimOne(last, c, t))
  }

  lemma {:induction false} TrimBackLast(segments: seq<Segment>, c: nat, t: nat)
    requires segments != []
    ensures var init, last := segments[..|segments| - 1], segments[|segments| - 1];
            TrimBack(segments, c, t)
            == TrimBack(init, c - ContentTaken(last, c), t - ThinkingTaken(last, t)) + [TrimOne(last, c, t)]
  {
    var init, last := segments[..|segments| - 1], segments[|segments| - 1];
    if c == 0 && t == 0 {
      assert TrimOne(last, 0, 0) == last;
      assert TrimBack(init, 0, 0) == init;
    }
  }

  lemma {:induction false} DropEmptySnoc(init: seq<Segment>, last: Segment)
    ensures DropEmpty(init + [last]) == DropEmpty(init) + Kept(last)
  {
    assert (init + [last])[..|init|] == init;
  }

  lemma {:induction false} TrimSegmentsIsTrim(segments: seq<Segment>, c: nat, t: nat)
    ensures TrimSegments(segments, c, t) == Trim(segments, c, t)
  {
    hide TrimBack, DropEmpty, TrimOne, Kept, ContentTaken, ThinkingTaken;
    if segments == [] {
      TrimNothing(c, t);
    } else {
      var init, last := segments[..|segments| - 1], segments[|segments| - 1];
      var dc, dt := c - ContentTaken(last, c), t - ThinkingTaken(last, t);
      TrimSegmentsIsTrim(init, dc, dt);
      TrimBackLast(segments, c, t);
      DropEmptySnoc(TrimBack(init, dc, dt), TrimOne(last, c, t));
    }
  }

  lemma {:induction false} TrimNothing(c: nat, t: nat)
    ensures TrimSegments([], c, t) == []
  {
  }

  lemma {:induction false} TrimSnoc(init: seq<Segment>, last: Segment, c: nat, t: nat)
    ensures Trim(init + [last], c, t)
         == Trim(init, c - ContentTaken(last, c), t - ThinkingTaken(last, t)) + Kept(TrimOne(last, c, t))
  {
    assert (init + [last])[..|init|] == init;
  }

  lemma {:induction false} TrimTrailingGrown(x: string, d: string, n: nat)
    ensures TrimTrailingRunes(x + d, n + |d|) == TrimTrailingRunes(x, n)
  {
  }

  /** A text that is wholly trimmed leaves no segment. */
  lemma {:induction false} TrimNew(segments: seq<Segment>, dc: string, dt: string, c: nat, t: nat)
    ensures Trim(segments + [TextSegment(dc, dt)], c + |dc|, t + |dt|) == Trim(segments, c, t)
  {
    hide Trim;
    TrimSnoc(segments, TextSegment(dc, dt), c + |dc|, t + |dt|);
  }

  /** A text that grew is trimmed back to what it would have been. */
  lemma {:induction false} TrimGrown(init: seq<Segment>, x: string, y: string, dc: string, dt: string, c: nat, t: nat)
    ensures Trim(init + [TextSegment(x + dc, y + dt)], c + |dc|, t + |dt|) == Trim(init + [TextSegment(x, y)], c, t)
  {
    hide Trim, TrimTrailingRunes;
    TrimSnoc(init, TextSegment(x, y), c, t);
    TrimSnoc(init, TextSegment(x + dc, y + dt), c + |dc|, t + |dt|);
    TrimTrailingGrown(x, dc, c);
    TrimTrailingGrown(y, dt, t);
  }

  /** How a streamed delta changes the segments: the newest text grows by it,
      or it becomes the newest text. */
  lemma {:induction false} AppendCases(segments: seq<Segment>, e: Event)
    requires !e.AttemptReset?
    ensures var dc, dt := ContentPart(e), ThinkingPart(e);
            || (Append(segments, e) == segments && |dc| == |dt| == 0)
            || Append(segments, e) == segments + [TextSegment(dc, dt)]
            || (segments != [] && segments[|segments| - 1].TextSegment?
                && var last := segments[|segments| - 1];
                   Append(segments, e) == segments[..|segments| - 1]
                       + [TextSegment(last.content + dc, last.thinking + dt)])
  {
  }

  /** Taking one more delta off takes exactly that delta off. */
  lemma {:induction false} TrimUndoesDelta(segments: seq<Segment>, e: Event, c: nat, t: nat)
    requires !e.AttemptReset?
    ensures Trim(Append(segments, e), c + |ContentPart(e)|, t + |ThinkingPart(e)|) == Trim(segments, c, t)
  {
    hide Trim, Append;
    var dc, dt := ContentPart(e), ThinkingPart(e);
    var after := Append(segments, e);
    AppendCases(segments, e);
    if after == segments && |dc| == |dt| == 0 {
    } else if after == segments + [TextSegment(dc, dt)] {
      TrimNew(segments, dc, dt, c, t);
    } else {
      var init, last := segments[..|segments| - 1], segments[|segments| - 1];
      TrimGrown(init, last.content, last.thinking, dc, dt, c, t);
      assert init + [TextSegment(last.content, last.thinking)] == segments;
    }
  }

  /** What a run of deltas adds to the two texts. */
  lemma {:induction false} DeltasText(o: Output, events: seq<Event>)
    requires OnlyDeltas(events)
    ensures ApplyAll(o, events).content == o.content + ContentOf(events)
    ensures ApplyAll(o, events).thinking == o.thinking + ThinkingOf(events)
  {
    if events != [] {
      var init, last := events[..|events| - 1], events[|events| - 1];
      DeltasText(o, init);
      Assoc(o.content, ContentOf(init), ContentPart(last));
      Assoc(o.thinking, ThinkingOf(init), ThinkingPart(last));
      assert last.ContentDelta? ==> ThinkingOf(init) + "" == ThinkingOf(init);
      assert last.ThinkingDelta? ==> ContentOf(init) + "" == ContentOf(init);
    }
  }

  /** Trimming a run of deltas off takes off exactly that run. */
  lemma {:induction false} DeltasTrim(o: Output, events: seq<Event>, c: nat, t: nat)
    requires OnlyDeltas(events)
    ensures Trim(ApplyAll(o, events).segments, c + |ContentOf(events)|, t + |ThinkingOf(events)|)
        == Trim(o.segments, c, t)
  {
    hide Trim, TrimSegments, Append;
    if events != [] {
      var init, last := events[..|events| - 1], events[|events| - 1];
      var cc, tt := c + |ContentOf(init)|, t + |ThinkingOf(init)|;
      TrimUndoesDelta(ApplyAll(o, init).segments, last, cc, tt);
      assert cc + |ContentPart(last)| == c + |ContentOf(events)|;
      assert tt + |ThinkingPart(last)| == t + |ThinkingOf(events)|;
      DeltasTrim(o, init, c, t);
    }
  }

  lemma {:induction false} NothingToTrim(o: Output)
    requires Tidy(o.segments)
    ensures TrimSegments(o.segments, 0, 0) == o.segments
  {
    DropEmptyTidy(o.segments);
  }

  lemma {:induction false} TrimSuffix(a: string, b: string)
    ensures TrimTrailingRunes(a + b, |b|) == a
  {
  }

  /** A reset that carries the runes an attempt has streamed takes back exactly
      that attempt: text, thinking and the interleaved segments are as before. */
  lemma {:induction false} ResetUndoesAttempt(o: Output, events: seq<Event>)
    requires Tidy(o.segments) && OnlyDeltas(events)
    ensures Apply(ApplyAll(o, events), AttemptReset(|ContentOf(events)|, |ThinkingOf(events)|)) == o
  {
    hide Trim, TrimSegments;
    var after := ApplyAll(o, events);
    assert after.content == o.content + ContentOf(events) && after.thinking == o.thinking + ThinkingOf(events) by {
      DeltasText(o, events);
    }
    TrimSuffix(o.content, ContentOf(events));
    TrimSuffix(o.thinking, ThinkingOf(events));
    assert TrimSegments(after.segments, |ContentOf(events)|, |ThinkingOf(events)|) == o.segments by {
      TrimSegmentsIsTrim(after.segments, |ContentOf(events)|, |ThinkingOf(events)|);
      TrimSegmentsIsTrim(o.segments, 0, 0);
      DeltasTrim(o, events, 0, 0);
      NothingToTrim(o);
    }
  }

  /** Every output the hub builds is tidy, so the undo always applies. */
  lemma {:induction false} OutputsAreTidy(o: Output, events: seq<Event>)
    requires Tidy(o.segments)
    ensures Tidy(ApplyAll(o, events).segments)
  {
    if events != [] {
      OutputsAreTidy(o, events[..|events| - 1]);
      var before := ApplyAll(o, events[..|events| - 1]);
      match events[|events| - 1]
      case AttemptReset(c, t) => DropEmptyIsTidy(TrimBack(before.segments, c, t));
      case _ => assert ContentPart(events[|events| - 1]) != "" || ThinkingPart(events[|events| - 1]) != ""
          || events[|events| - 1].delta == "";
    }
  }

  // ----- What the segments show -----

  /** The answer as the text segments spell it. */
  function Spelled(segments: seq<Segment>): string
  {
    if segments == [] then ""
    else
      var last := segments[|segments| - 1];
      Spelled(segments[..|segments| - 1]) + if last.TextSegment? then last.content else ""
  }

  function SpelledThinking(segments: seq<Segment>): string
  {
    if segments == [] then ""
    else
      var last := segments[|segments| - 1];
      SpelledThinking(segments[..|segments| - 1]) + if last.TextSegment? then last.thinking else ""
  }

  predicate IsAnswer(s: Segment) { s.TextSegment? && s.content != "" && s.thinking == "" }

  predicate IsThought(s: Segment) { s.TextSegment? && s.content == "" && s.thinking != "" }

  /** Each text segment is of one kind, and its neighbours are not of that kind. */
  predicate Alternate(segments: seq<Segment>)
  {
    && (forall i | 0 <= i < |segments| && segments[i].TextSegment? :: IsAnswer(segments[i]) || IsThought(segments[i]))
    && (forall i | 0 < i < |segments| && segments[i].TextSegment? && segments[i - 1].TextSegment? ::
      IsAnswer(segments[i]) <==> IsThought(segments[i - 1]))
  }

  lemma {:induction false} SpelledSnoc(init: seq<Segment>, last: Segment)
    ensures Spelled(init + [last]) == Spelled(init) + if last.TextSegment? then last.content else ""
    ensures SpelledThinking(init + [last]) == SpelledThinking(init) + if last.TextSegment? then last.thinking else ""
  {
    assert (init + [last])[..|init|] == init;
  }

  lemma {:induction false} AppendSpells(segments: seq<Segment>, e: Event)
    requires !e.AttemptReset?
    ensures Spelled(Append(segments, e)) == Spelled(segments) + ContentPart(e)
    ensures SpelledThinking(Append(segments, e)) == SpelledThinking(segments) + ThinkingPart(e)
  {
    hide Spelled, SpelledThinking;
    AppendCases(segments, e);
    var dc, dt, n := ContentPart(e), ThinkingPart(e), |segments| - 1;
    SpelledSnoc(segments, TextSegment(dc, dt));
    assert Spelled(segments) + "" == Spelled(segments) && SpelledThinking(segments) + "" == SpelledThinking(segments);
    if segments != [] && segments[n].TextSegment? {
      var init, last := segments[..n], segments[n];
      assert segments == init + [last];
      SpelledSnoc(init, last);
      SpelledSnoc(init, TextSegment(last.content + dc, last.thinking + dt));
      Assoc(Spelled(init), last.content, dc);
      Assoc(SpelledThinking(init), last.thinking, dt);
    }
  }

  lemma {:induction false} AppendAlternates(segments: seq<Segment>, e: Event)
    requires !e.AttemptReset? && Alternate(segments)
    ensures Alternate(Append(segments, e))
  {
    var n := |segments| - 1;
    if segments != [] {
      assert segments[n].TextSegment? ==> IsAnswer(segments[n]) || IsThought(segments[n]);
    }
  }

  /** Streamed deltas spell answer and thinking in the segments, piece by piece,
      with as few pieces as their order allows. */
  lemma {:induction false} DeltasSpell(events: seq<Event>)
    requires OnlyDeltas(events)
    ensures var o := ApplyAll(Output("", "", []), events);
            && Spelled(o.segments) == o.content == ContentOf(events)
            && SpelledThinking(o.segments) == o.thinking == ThinkingOf(events)
            && Alternate(o.segments)
  {
    hide Spelled, SpelledThinking, Append, Alternate;
    if events == [] {
      NothingSpelled();
    } else {
      var init, e := events[..|events| - 1], events[|events| - 1];
      DeltasSpell(init);
      var o := ApplyAll(Output("", "", []), init);
      AppendSpells(o.segments, e);
      AppendAlternates(o.segments, e);
      assert o.content + "" == o.content && o.thinking + "" == o.thinking;
    }
  }

  lemma {:induction false} NothingSpelled()
    ensures Spelled([]) == "" && SpelledThinking([]) == "" && Alternate([])
  {
  }
}
