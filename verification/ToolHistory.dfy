/** Message histories as model providers accept them: every tool result
    directly after an assistant message holding the one call it answers. */
module ToolHistory {
  import opened Sequences
  import opened Text

  datatype Role = User | Assistant | Tool | System

  datatype Call = Call(id: string, index: Option<int>, body: string)

  datatype Part =
    | TextPart(text: string)
    | ImagePart(mime: string, detail: string, url: Option<string>, base64: Option<string>)

  datatype LegacyPart =
    | LegacyText(text: string)
    | LegacyImage(mime: string, detail: string, uri: string, url: string)
    | LegacyOther

  datatype Message = Message(
    role: Role,
    content: string,
    reasoning: string,
    calls: seq<Call>,
    toolCallId: string,
    userParts: seq<Part>,
    legacyParts: seq<LegacyPart>,
    genParts: seq<Part>)

  /** Replay feeds a stored history back to a model; Stored prepares the
      messages of a turn for the database, of a cut-off turn if partial. */
  datatype Style = Replay | Stored(preservePartial: bool)

  datatype Pair = Pair(call: Call, tool: Message)

  predicate IsTool(m: Message) { m.role == Tool }

  predicate IsCalling(m: Message) { m.role == Assistant && m.calls != [] }

  predicate IsOther(m: Message) { !IsTool(m) && !IsCalling(m) }

  /** a holds exactly the one call that t answers. */
  predicate Answers(a: Message, t: Message)
  {
    a.role == Assistant && |a.calls| == 1 && a.calls[0].id != "" && IsTool(t) && t.toolCallId == a.calls[0].id
  }

  /** What providers accept: other messages, and assistant-tool pairs. */
  predicate Canonical(ms: seq<Message>)
  {
    if ms == [] then true
    else if IsOther(ms[0]) then Canonical(ms[1..])
    else |ms| >= 2 && Answers(ms[0], ms[1]) && Canonical(ms[2..])
  }

  /** The same by positions: a tool message directly follows the assistant that
      holds exactly its call, and a calling assistant directly precedes its
      result. */
  predicate Adjacent(ms: seq<Message>)
  {
    && (forall j | 0 <= j < |ms| && IsTool(ms[j]) :: j > 0 && Answers(ms[j - 1], ms[j]))
    && (forall j | 0 <= j < |ms| && IsCalling(ms[j]) :: j + 1 < |ms| && Answers(ms[j], ms[j + 1]))
  }

  /** The first k messages are one other message or one pair. */
  predicate StartsWithUnit(ms: seq<Message>, k: nat)
  {
    || (k == 1 <= |ms| && IsOther(ms[0]))
    || (k == 2 <= |ms| && Answers(ms[0], ms[1]))
  }

  lemma {:induction false} CanonicalIsAdjacent(ms: seq<Message>)
    ensures Canonical(ms) <==> Adjacent(ms)
  {
    if ms == [] {
    } else if IsOther(ms[0]) {
      CanonicalIsAdjacent(ms[1..]);
      AdjacentTail(ms, 1);
    } else if |ms| >= 2 && Answers(ms[0], ms[1]) {
      CanonicalIsAdjacent(ms[2..]);
      AdjacentTail(ms, 2);
    }
  }

  lemma {:induction false} AdjacentTail(ms: seq<Message>, k: nat)
    requires StartsWithUnit(ms, k)
    ensures Adjacent(ms) <==> Adjacent(ms[k..])
  {
    hide IsOther, Answers;
    var rest := ms[k..];
    assert forall j | 0 <= j < |rest| :: rest[j] == ms[k + j];
    OtherOrAnswered(ms, k);
    if Adjacent(ms) {
      forall j | 0 <= j < |rest| && IsTool(rest[j]) ensures j > 0 && Answers(rest[j - 1], rest[j]) {
        assert Answers(ms[k + j - 1], ms[k + j]);
        if j == 0 {
          AnswersNeedsCall(ms[k - 1], ms[k]);
        }
      }
      forall j | 0 <= j < |rest| && IsCalling(rest[j]) ensures j + 1 < |rest| && Answers(rest[j], rest[j + 1]) {
        assert Answers(ms[k + j], ms[k + j + 1]);
      }
    }
    if Adjacent(rest) {
      forall j | 0 <= j < |ms| && IsTool(ms[j]) ensures j > 0 && Answers(ms[j - 1], ms[j]) {
        if j >= k {
          assert IsTool(rest[j - k]);
        }
      }
      forall j | 0 <= j < |ms| && IsCalling(ms[j]) ensures j + 1 < |ms| && Answers(ms[j], ms[j + 1]) {
        if j >= k {
          assert IsCalling(rest[j - k]);
        }
      }
    }
  }

  lemma {:induction false} OtherOrAnswered(ms: seq<Message>, k: nat)
    requires StartsWithUnit(ms, k)
    ensures !IsTool(ms[0]) && !IsCalling(ms[k - 1])
    ensures k == 1 ==> IsOther(ms[0]) && !IsCalling(ms[0])
    ensures k == 2 ==> IsTool(ms[1])
  {
  }

  lemma {:induction false} AnswersNeedsCall(a: Message, t: Message)
    requires Answers(a, t)
    ensures IsCalling(a)
  {
  }

  // ----- The specification: each message has its own image -----

  function LeadingTools(ms: seq<Message>): (r: seq<Message>)
    ensures r <= ms && forall j | 0 <= j < |r| :: IsTool(r[j])
    ensures |r| < |ms| ==> !IsTool(ms[|r|])
  {
    if ms != [] && IsTool(ms[0]) then [ms[0]] + LeadingTools(ms[1..]) else []
  }

  /** The first result for a call; a blank id has none. */
  function FirstResult(tools: seq<Message>, id: string): (r: Option<Message>)
    ensures r.Some? ==> id != "" && r.value.toolCallId == id
  {
    if tools == [] || id == "" then None
    else
      var earlier := FirstResult(tools[..|tools| - 1], id);
      var last := tools[|tools| - 1];
      if earlier.Some? then earlier else if last.toolCallId == id then Some(last) else None
  }

  function Pairs(calls: seq<Call>, tools: seq<Message>): seq<Pair>
  {
    if calls == [] then []
    else
      var call := calls[|calls| - 1];
      var tool := FirstResult(tools, call.id);
      Pairs(calls[..|calls| - 1], tools) + if tool.Some? then [Pair(call, tool.value)] else []
  }

  function ReindexCall(c: Call, style: Style): Call
  {
    if style.Replay? then c.(index := None) else c
  }

  /** The assistant message split off for one call; only the first keeps the
      text and the media. */
  function Split(m: Message, call: Call, first: bool, style: Style): Message
  {
    var one := m.(calls := [ReindexCall(call, style)]);
    if first then one else one.(content := "", userParts := [], legacyParts := [], genParts := [])
  }

  function Expand(m: Message, pairs: seq<Pair>, style: Style): seq<Message>
  {
    if pairs == [] then []
    else
      var n := |pairs| - 1;
      Expand(m, pairs[..n], style) + [Split(m, pairs[n].call, n == 0, style), pairs[n].tool]
  }

  /** An assistant message worth keeping when its calls got no result. */
  predicate Meaningful(m: Message)
  {
    TrimSpace(m.content) != "" || m.calls != [] || TrimSpace(m.reasoning) != ""
  }

  function Unanswered(m: Message, style: Style): seq<Message>
  {
    if style.Stored? && style.preservePartial && Meaningful(m.(calls := [])) then [m.(calls := [])] else []
  }

  /** What a message becomes, given the messages that follow it. */
  function Image(m: Message, rest: seq<Message>, style: Style): seq<Message>
  {
    if IsTool(m) then []
    else if IsOther(m) then [m]
    else
      var pairs := Pairs(m.calls, LeadingTools(rest));
      if pairs == [] then Unanswered(m, style) else Expand(m, pairs, style)
  }

  function Normalize(ms: seq<Message>, style: Style): seq<Message>
  {
    if ms == [] then [] else Image(ms[0], ms[1..], style) + Normalize(ms[1..], style)
  }

  // ----- The loops -----

  method PairToolResultsByCalls(calls: seq<Call>, tools: seq<Message>) returns (pairs: seq<Pair>)
    ensures pairs == Pairs(calls, tools)
  {
    hide FirstResult;
    if calls == [] || tools == [] {
      NoTools(calls, tools);
      return [];
    }
    var byID := IndexByID(tools);
    pairs := [];
    for i := 0 to |calls|
      invariant pairs == Pairs(calls[..i], tools)
    {
      assert calls[..i + 1][..i] == calls[..i];
      var call := calls[i];
      assert FirstResult(tools, call.id) == Lookup(byID, call.id);
      if call.id != "" && call.id in byID {
        pairs := pairs + [Pair(call, byID[call.id])];
      }
    }
    assert calls[..|calls|] == calls;
  }

  function Lookup(byID: map<string, Message>, id: string): Option<Message>
  {
    if id in byID then Some(byID[id]) else None
  }

  method IndexByID(tools: seq<Message>) returns (byID: map<string, Message>)
    ensures forall id :: Lookup(byID, id) == FirstResult(tools, id)
    ensures "" !in byID
  {
    hide FirstResult;
    byID := map[];
    NoFirstResult();
    for k := 0 to |tools|
      invariant forall id :: Lookup(byID, id) == FirstResult(tools[..k], id)
      invariant "" !in byID
    {
      var tool := tools[k];
      ghost var before := byID;
      if tool.toolCallId != "" && tool.toolCallId !in byID {
        byID := byID[tool.toolCallId := tool];
      }
      forall id ensures Lookup(byID, id) == FirstResult(tools[..k + 1], id) {
        FirstResultStep(tools, k, id);
        assert Lookup(before, id) == FirstResult(tools[..k], id);
      }
    }
    assert tools[..|tools|] == tools;
  }

  lemma {:induction false} NoFirstResult()
    ensures forall id :: FirstResult([], id) == None
  {
  }

  lemma {:induction false} FirstResultStep(tools: seq<Message>, k: nat, id: string)
    requires k < |tools|
    ensures FirstResult(tools[..k + 1], id)
         == var earlier := FirstResult(tools[..k], id);
            if id != "" && earlier == None && tools[k].toolCallId == id then Some(tools[k]) else earlier
  {
    assert tools[..k + 1][..k] == tools[..k];
  }

  lemma {:induction false} NoTools(calls: seq<Call>, tools: seq<Message>)
    requires calls == [] || tools == []
    ensures Pairs(calls, tools) == []
  {
    if calls != [] {
      NoTools(calls[..|calls| - 1], tools);
    }
  }

  lemma {:induction false} SkipTools(ms: seq<Message>, n: nat, style: Style)
    requires n <= |LeadingTools(ms)|
    ensures Normalize(ms, style) == Normalize(ms[n..], style)
    ensures LeadingTools(ms) == ms[..n] + LeadingTools(ms[n..])
  {
    hide IsTool, Normalize, LeadingTools;
    if n > 0 {
      LeadingToolsStep(ms);
      SkipTool(ms, style);
      SkipTools(ms[1..], n - 1, style);
      assert ms[1..][n - 1..] == ms[n..];
      assert ms[..n] == [ms[0]] + ms[1..][..n - 1];
      Assoc([ms[0]], ms[1..][..n - 1], LeadingTools(ms[n..]));
    } else {
      assert ms[0..] == ms && ms[..0] + LeadingTools(ms) == LeadingTools(ms);
    }
  }

  lemma {:induction false} LeadingToolsStep(ms: seq<Message>)
    requires |LeadingTools(ms)| > 0
    ensures ms != [] && IsTool(ms[0]) && LeadingTools(ms) == [ms[0]] + LeadingTools(ms[1..])
  {
  }

  /** The run of tool messages after position i, and where it ends. */
  method CollectTools(messages: seq<Message>, i: nat) returns (tools: seq<Message>, next: nat)
    requires i < |messages|
    ensures i < next <= |messages| && tools == LeadingTools(messages[i + 1..]) && next == i + 1 + |tools|
  {
    hide LeadingTools;
    ghost var rest := messages[i + 1..];
    next, tools := i + 1, [];
    while next < |messages| && IsTool(messages[next])
      invariant i < next <= |messages| && tools == rest[..next - i - 1] && |tools| <= |LeadingTools(rest)|
    {
      assert messages[next] == rest[next - i - 1];
      tools := tools + [messages[next]];
      next := next + 1;
    }
    assert |tools| < |rest| ==> messages[next] == rest[|tools|];
  }

  /** Splits one assistant message into a call-result pair per answered call. */
  method ExpandPairs(msg: Message, pairs: seq<Pair>, style: Style) returns (out: seq<Message>)
    ensures out == Expand(msg, pairs, style)
  {
    out := [];
    for pairIndex := 0 to |pairs|
      invariant out == Expand(msg, pairs[..pairIndex], style)
    {
      assert pairs[..pairIndex + 1][..pairIndex] == pairs[..pairIndex];
      var pair := pairs[pairIndex];
      var assistant := msg.(calls := [ReindexCall(pair.call, style)]);
      if pairIndex > 0 {
        assistant := assistant.(content := "", userParts := [], legacyParts := [], genParts := []);
      }
      out := out + [assistant, pair.tool];
    }
    assert pairs[..|pairs|] == pairs;
  }

  lemma {:induction false} NormalizeAt(ms: seq<Message>, i: nat, style: Style)
    requires i < |ms|
    ensures Normalize(ms[i..], style) == Image(ms[i], ms[i + 1..], style) + Normalize(ms[i + 1..], style)
  {
    hide Image;
    assert ms[i..][1..] == ms[i + 1..];
  }

  method NormalizeToolReplayHistory(messages: seq<Message>) returns (normalized: seq<Message>)
    ensures normalized == Normalize(messages, Replay)
    ensures Voices(normalized) == HeardAll(messages, Replay)
  {
    SpokenOnce(messages, Replay);
    hide LeadingTools, Pairs, Expand, Normalize, Voices, HeardAll;
    if messages == [] {
      NormalizeEmpty(Replay);
      return messages;
    }
    normalized := [];
    var i := 0;
    assert messages[0..] == messages;
    while i < |messages|
      invariant 0 <= i <= |messages|
      invariant Normalize(messages, Replay) == normalized + Normalize(messages[i..], Replay)
    {
      var msg := messages[i];
      NormalizeAt(messages, i, Replay);
      ghost var image := Image(msg, messages[i + 1..], Replay);
      Assoc(normalized, image, Normalize(messages[i + 1..], Replay));
      var next := i + 1;
      if IsTool(msg) {
        assert normalized + image == normalized;
      } else if IsOther(msg) {
        normalized := normalized + [msg];
      } else {
        var tools;
        tools, next := CollectTools(messages, i);
        SkipTools(messages[i + 1..], |tools|, Replay);
        assert messages[i + 1..][|tools|..] == messages[next..];
        var pairs := PairToolResultsByCalls(msg.calls, tools);
        if pairs == [] {
          assert normalized + image == normalized;
        } else {
          var expanded := ExpandPairs(msg, pairs, Replay);
          normalized := normalized + expanded;
        }
      }
      i := next;
    }
    NormalizeEmpty(Replay);
    assert messages[i..] == [];
  }

  lemma {:induction false} NormalizeEmpty(style: Style)
    ensures Normalize([], style) == []
  {
  }

  method CanonicalizeProducedMessagesWithPartial(messages: seq<Message>, preservePartial: bool)
    returns (normalized: seq<Message>)
    ensures normalized == Normalize(messages, Stored(preservePartial))
    ensures Voices(normalized) == HeardAll(messages, Stored(preservePartial))
  {
    ghost var style := Stored(preservePartial);
    SpokenOnce(messages, style);
    hide LeadingTools, Pairs, Expand, Normalize, Meaningful, Voices, HeardAll;
    if messages == [] {
      NormalizeEmpty(style);
      return messages;
    }
    normalized := [];
    var i := 0;
    assert messages[0..] == messages;
    while i < |messages|
      invariant 0 <= i <= |messages|
      invariant Normalize(messages, style) == normalized + Normalize(messages[i..], style)
    {
      var msg := messages[i];
      NormalizeAt(messages, i, style);
      ghost var image := Image(msg, messages[i + 1..], style);
      Assoc(normalized, image, Normalize(messages[i + 1..], style));
      var next := i + 1;
      if IsTool(msg) {
        assert normalized + image == normalized;
      } else if IsOther(msg) {
        normalized := normalized + [msg];
      } else {
        var tools;
        tools, next := CollectTools(messages, i);
        SkipTools(messages[i + 1..], |tools|, style);
        assert messages[i + 1..][|tools|..] == messages[next..];
        var pairs := PairToolResultsByCalls(msg.calls, tools);
        if pairs != [] {
          var expanded := ExpandPairs(msg, pairs, Stored(preservePartial));
          normalized := normalized + expanded;
        } else if preservePartial && Meaningful(msg.(calls := [])) {
          normalized := normalized + [msg.(calls := [])];
        } else {
          assert normalized + image == normalized;
        }
      }
      i := next;
    }
    NormalizeEmpty(style);
    assert messages[i..] == [];
  }

  /** Drops assistant messages without text, calls or reasoning. */
  function Filtered(ms: seq<Message>): seq<Message>
  {
    if ms == [] then []
    else
      var last := ms[|ms| - 1];
      Filtered(ms[..|ms| - 1]) + if last.role == Assistant && !Meaningful(last) then [] else [last]
  }

  method CanonicalizePartialProducedMessages(messages: seq<Message>) returns (filtered: seq<Message>)
    ensures filtered == Filtered(Normalize(messages, Stored(true)))
  {
    hide Normalize, Meaningful;
    var normalized := CanonicalizeProducedMessagesWithPartial(messages, true);
    if normalized == [] {
      return normalized;
    }
    filtered := [];
    for k := 0 to |normalized|
      invariant filtered == Filtered(normalized[..k])
    {
      assert normalized[..k + 1][..k] == normalized[..k];
      var message := normalized[k];
      if !(message.role == Assistant && !Meaningful(message)) {
        filtered := filtered + [message];
      }
    }
    assert normalized[..|normalized|] == normalized;
  }

  // ----- What the normal form is for -----

  lemma {:induction false} CanonicalConcat(a: seq<Message>, b: seq<Message>)
    requires Canonical(a) && Canonical(b)
    ensures Canonical(a + b)
  {
    hide IsOther, Answers;
    if a == [] {
      assert a + b == b;
    } else if IsOther(a[0]) {
      CanonicalConcat(a[1..], b);
      assert (a + b)[1..] == a[1..] + b;
    } else {
      CanonicalConcat(a[2..], b);
      assert (a + b)[2..] == a[2..] + b;
      assert (a + b)[0] == a[0] && (a + b)[1] == a[1];
    }
  }

  lemma {:induction false} PairsMatch(calls: seq<Call>, tools: seq<Message>)
    requires forall j | 0 <= j < |tools| :: IsTool(tools[j])
    ensures forall j | 0 <= j < |Pairs(calls, tools)| ::
              var p := Pairs(calls, tools)[j]; IsTool(p.tool) && p.call.id != "" && p.tool.toolCallId == p.call.id
  {
    if calls != [] {
      PairsMatch(calls[..|calls| - 1], tools);
      FirstResultIsTool(tools, calls[|calls| - 1].id);
    }
  }

  lemma {:induction false} FirstResultIsTool(tools: seq<Message>, id: string)
    requires forall j | 0 <= j < |tools| :: IsTool(tools[j])
    ensures FirstResult(tools, id).Some? ==> IsTool(FirstResult(tools, id).value)
  {
    if tools != [] {
      FirstResultIsTool(tools[..|tools| - 1], id);
    }
  }

  lemma {:induction false} ExpandCanonical(m: Message, pairs: seq<Pair>, style: Style)
    requires m.role == Assistant
    requires forall j | 0 <= j < |pairs| ::
               IsTool(pairs[j].tool) && pairs[j].call.id != "" && pairs[j].tool.toolCallId == pairs[j].call.id
    ensures Canonical(Expand(m, pairs, style))
  {
    if pairs != [] {
      var n := |pairs| - 1;
      ExpandCanonical(m, pairs[..n], style);
      var two := [Split(m, pairs[n].call, n == 0, style), pairs[n].tool];
      assert Canonical(two) by { assert Answers(two[0], two[1]) && two[2..] == []; }
      CanonicalConcat(Expand(m, pairs[..n], style), two);
    }
  }

  lemma {:induction false} ImageCanonical(m: Message, rest: seq<Message>, style: Style)
    ensures Canonical(Image(m, rest, style))
  {
    hide FirstResult, Expand, Pairs, LeadingTools;
    if IsCalling(m) {
      PairsMatch(m.calls, LeadingTools(rest));
      ExpandCanonical(m, Pairs(m.calls, LeadingTools(rest)), style);
    }
  }

  /** Whatever the history, its normal form is one providers accept. */
  lemma {:induction false} NormalizeCanonical(ms: seq<Message>, style: Style)
    ensures Canonical(Normalize(ms, style))
  {
    hide Image;
    if ms != [] {
      NormalizeCanonical(ms[1..], style);
      ImageCanonical(ms[0], ms[1..], style);
      CanonicalConcat(Image(ms[0], ms[1..], style), Normalize(ms[1..], style));
    }
  }

  /** A history with the indices of its calls cleared, as replay wants them. */
  function Reindex(ms: seq<Message>, style: Style): seq<Message>
  {
    if ms == [] then [] else [ReindexMessage(ms[0], style)] + Reindex(ms[1..], style)
  }

  function ReindexMessage(m: Message, style: Style): Message
  {
    if m.role == Assistant && |m.calls| == 1 then m.(calls := [ReindexCall(m.calls[0], style)]) else m
  }

  lemma {:induction false} PairImage(a: Message, t: Message, rest: seq<Message>, style: Style)
    requires Answers(a, t)
    requires rest == [] || !IsTool(rest[0])
    ensures Image(a, [t] + rest, style) == [ReindexMessage(a, style), t]
  {
    hide LeadingTools, FirstResult, Pairs, Expand;
    OneLeadingTool(t, rest);
    OnePair(a, t);
    OneExpanded(a, Pair(a.calls[0], t), style);
  }

  lemma {:induction false} OneLeadingTool(t: Message, rest: seq<Message>)
    requires IsTool(t) && (rest == [] || !IsTool(rest[0]))
    ensures LeadingTools([t] + rest) == [t]
  {
    assert ([t] + rest)[1..] == rest;
    assert LeadingTools(rest) == [];
  }

  lemma {:induction false} OnePair(a: Message, t: Message)
    requires Answers(a, t)
    ensures Pairs(a.calls, [t]) == [Pair(a.calls[0], t)]
  {
    assert a.calls[..0] == [] && [t][..0] == [];
    assert FirstResult([], a.calls[0].id) == None;
    assert FirstResult([t], a.calls[0].id) == Some(t);
    assert Pairs([], [t]) == [];
  }

  lemma {:induction false} OneExpanded(a: Message, pair: Pair, style: Style)
    ensures Expand(a, [pair], style) == [Split(a, pair.call, true, style), pair.tool]
  {
    assert [pair][..0] == [];
    assert Expand(a, [], style) == [];
  }

  lemma {:induction false} CanonicalStart(ms: seq<Message>)
    requires Canonical(ms) && ms != []
    ensures !IsTool(ms[0])
  {
  }

  /** A history in normal form is left as it is, but for the call indices. */
  lemma {:induction false} CanonicalFixed(ms: seq<Message>, style: Style)
    requires Canonical(ms)
    ensures Normalize(ms, style) == Reindex(ms, style)
  {
    hide Image, Answers, IsOther;
    if ms == [] {
    } else if IsOther(ms[0]) {
      CanonicalFixed(ms[1..], style);
      OtherImage(ms[0], ms[1..], style);
    } else {
      CanonicalFixed(ms[2..], style);
      if ms[2..] != [] { CanonicalStart(ms[2..]); }
      PairFixed(ms, style);
    }
  }

  lemma {:induction false} OtherImage(m: Message, rest: seq<Message>, style: Style)
    requires IsOther(m)
    ensures Image(m, rest, style) == [m] && ReindexMessage(m, style) == m
  {
  }

  lemma {:induction false} ReindexFrom(ms: seq<Message>, style: Style)
    requires ms != []
    ensures Reindex(ms, style)
        == [if IsTool(ms[0]) then ms[0] else ReindexMessage(ms[0], style)] + Reindex(ms[1..], style)
  {
  }

  lemma {:induction false} NormalizeFrom(ms: seq<Message>, style: Style)
    requires ms != []
    ensures Normalize(ms, style) == Image(ms[0], ms[1..], style) + Normalize(ms[1..], style)
  {
    hide Image;
  }

  lemma {:induction false} PairFixed(ms: seq<Message>, style: Style)
    requires |ms| >= 2 && Answers(ms[0], ms[1]) && (|ms| == 2 || !IsTool(ms[2]))
    requires Normalize(ms[2..], style) == Reindex(ms[2..], style)
    ensures Normalize(ms, style) == Reindex(ms, style)
  {
    hide Image, Normalize, Reindex;
    var rest := ms[2..];
    NormalizeFrom(ms, style);
    assert ms[1..] == [ms[1]] + rest;
    assert ms[1..][1..] == rest;
    PairImage(ms[0], ms[1], rest, style);
    SkipTool(ms[1..], style);
    ReindexFrom(ms[1..], style);
    ReindexFrom(ms, style);
    Assoc([ReindexMessage(ms[0], style)], [ms[1]], Reindex(rest, style));
  }

  lemma {:induction false} SkipTool(ms: seq<Message>, style: Style)
    requires ms != [] && IsTool(ms[0])
    ensures Normalize(ms, style) == Normalize(ms[1..], style)
  {
    assert Image(ms[0], ms[1..], style) == [];
  }

  lemma {:induction false} ReindexTwice(ms: seq<Message>, style: Style)
    ensures Reindex(Reindex(ms, style), style) == Reindex(ms, style)
    ensures Canonical(ms) ==> Canonical(Reindex(ms, style))
    ensures style.Stored? ==> Reindex(ms, style) == ms
  {
    hide Answers, IsOther;
    if ms != [] {
      ReindexTwice(ms[1..], style);
      ReindexMessageKeeps(ms[0], style);
      if |ms| > 1 {
        ReindexTwice(ms[2..], style);
        ReindexPair(ms[0], ms[1], style);
        assert Reindex(ms, style)[2..] == Reindex(ms[2..], style);
      }
      assert Reindex(ms, style)[1..] == Reindex(ms[1..], style);
    }
  }

  lemma {:induction false} ReindexMessageKeeps(m: Message, style: Style)
    ensures var r := ReindexMessage(m, style);
            ReindexMessage(r, style) == r && (IsOther(r) <==> IsOther(m)) && (style.Stored? ==> r == m)
  {
  }

  lemma {:induction false} ReindexPair(a: Message, t: Message, style: Style)
    ensures Answers(a, t) ==> Answers(ReindexMessage(a, style), ReindexMessage(t, style))
  {
  }

  lemma {:induction false} ReindexedFixed(ms: seq<Message>, style: Style)
    ensures Reindex(Normalize(ms, style), style) == Normalize(ms, style)
  {
    hide Image, ReindexMessage;
    if ms != [] {
      ReindexedFixed(ms[1..], style);
      ReindexConcat(Image(ms[0], ms[1..], style), Normalize(ms[1..], style), style);
      ReindexedImage(ms[0], ms[1..], style);
    }
  }

  lemma {:induction false} ReindexConcat(a: seq<Message>, b: seq<Message>, style: Style)
    ensures Reindex(a + b, style) == Reindex(a, style) + Reindex(b, style)
  {
    hide ReindexMessage;
    if a == [] {
      assert a + b == b;
    } else {
      ReindexConcat(a[1..], b, style);
      assert (a + b)[1..] == a[1..] + b && (a + b)[0] == a[0];
      Assoc([ReindexMessage(a[0], style)], Reindex(a[1..], style), Reindex(b, style));
    }
  }

  lemma {:induction false} ReindexedImage(m: Message, rest: seq<Message>, style: Style)
    ensures Reindex(Image(m, rest, style), style) == Image(m, rest, style)
  {
    hide LeadingTools, Pairs, Expand, Meaningful;
    if IsCalling(m) {
      var tools := LeadingTools(rest);
      PairsMatch(m.calls, tools);
      ReindexedExpand(m, Pairs(m.calls, tools), style);
    }
  }

  lemma {:induction false} ReindexedExpand(m: Message, pairs: seq<Pair>, style: Style)
    requires forall j | 0 <= j < |pairs| :: IsTool(pairs[j].tool)
    ensures Reindex(Expand(m, pairs, style), style) == Expand(m, pairs, style)
  {
    if pairs != [] {
      var n := |pairs| - 1;
      ReindexedExpand(m, pairs[..n], style);
      var two := [Split(m, pairs[n].call, n == 0, style), pairs[n].tool];
      ReindexConcat(Expand(m, pairs[..n], style), two, style);
      ReindexFrom(two, style);
      ReindexFrom(two[1..], style);
      assert two[1..][1..] == [] && Reindex([], style) == [];
      assert ReindexMessage(two[0], style) == two[0];
      assert Reindex(two, style) == two;
    }
  }

  /** Normalising twice is normalising once. */
  lemma {:induction false} NormalizeIdempotent(ms: seq<Message>, style: Style)
    ensures Normalize(Normalize(ms, style), style) == Normalize(ms, style)
  {
    hide Normalize, Reindex, Canonical;
    NormalizeCanonical(ms, style);
    CanonicalFixed(Normalize(ms, style), style);
    ReindexedFixed(ms, style);
  }

  /** Canonicalised before it is stored, a history comes back unchanged from
      replay normalisation, but for the cleared call indices. */
  lemma {:induction false} StoredHistoriesReplayAsTheyAre(ms: seq<Message>, preservePartial: bool)
    ensures var stored := Normalize(ms, Stored(preservePartial)); Normalize(stored, Replay) == Reindex(stored, Replay)
    ensures var kept := Filtered(Normalize(ms, Stored(true))); Normalize(kept, Replay) == Reindex(kept, Replay)
  {
    hide Normalize, Reindex, Canonical, Filtered;
    NormalizeCanonical(ms, Stored(preservePartial));
    CanonicalFixed(Normalize(ms, Stored(preservePartial)), Replay);
    NormalizeCanonical(ms, Stored(true));
    FilteredCanonical(Normalize(ms, Stored(true)));
    CanonicalFixed(Filtered(Normalize(ms, Stored(true))), Replay);
  }

  lemma {:induction false} FilteredConcat(a: seq<Message>, b: seq<Message>)
    ensures Filtered(a + b) == Filtered(a) + Filtered(b)
  {
    hide Meaningful;
    if b == [] {
      assert a + b == a;
    } else {
      var init, last := b[..|b| - 1], b[|b| - 1];
      FilteredConcat(a, init);
      assert (a + b)[..|a + b| - 1] == a + init && (a + b)[|a + b| - 1] == last;
      Assoc(Filtered(a), Filtered(init), if last.role == Assistant && !Meaningful(last) then [] else [last]);
    }
  }

  /** Of a cut-off turn exactly the assistant messages go that have no calls and
      whose text and reasoning are blank. */
  lemma {:induction false} OnlyBlankAnswersGo(a: seq<Message>, m: Message, b: seq<Message>)
    ensures var blank := m.role == Assistant && m.calls == []
                         && TrimSpace(m.content) == "" && TrimSpace(m.reasoning) == "";
            Filtered(a + [m] + b) == Filtered(a) + (if blank then [] else [m]) + Filtered(b)
  {
    hide TrimSpace;
    FilteredConcat(a + [m], b);
    FilteredConcat(a, [m]);
    assert [m][..0] == [];
    assert Filtered([]) == [];
  }

  lemma {:induction false} FilteredCanonical(ms: seq<Message>)
    requires Canonical(ms)
    ensures Canonical(Filtered(ms))
  {
    hide TrimSpace;
    if ms != [] {
      var k := if IsOther(ms[0]) then 1 else 2;
      FilteredCanonical(ms[k..]);
      assert ms == ms[..k] + ms[k..];
      FilteredConcat(ms[..k], ms[k..]);
      FilteredUnit(ms[..k]);
      CanonicalConcat(Filtered(ms[..k]), Filtered(ms[k..]));
    }
  }

  lemma {:induction false} FilteredUnit(unit: seq<Message>)
    requires (|unit| == 1 && IsOther(unit[0])) || (|unit| == 2 && Answers(unit[0], unit[1]))
    ensures Canonical(Filtered(unit))
  {
    hide TrimSpace;
    if |unit| == 1 {
      assert unit[..0] == [];
    } else {
      assert unit[..1][..0] == [];
      assert Filtered(unit[..1]) == [unit[0]];
      assert Filtered(unit) == unit;
      assert unit[2..] == [];
    }
  }

  /** Histories can be normalised in parts, cut anywhere but before a result. */
  lemma {:induction false} NormalizeConcat(a: seq<Message>, b: seq<Message>, style: Style)
    requires b == [] || !IsTool(b[0])
    ensures Normalize(a + b, style) == Normalize(a, style) + Normalize(b, style)
  {
    hide Image;
    if a == [] {
      assert a + b == b;
    } else {
      NormalizeConcat(a[1..], b, style);
      assert (a + b)[1..] == a[1..] + b;
      LeadingToolsConcat(a[1..], b);
      ImageLooksAtTools(a[0], a[1..] + b, a[1..], style);
      Assoc(Image(a[0], a[1..], style), Normalize(a[1..], style), Normalize(b, style));
    }
  }

  lemma {:induction false} LeadingToolsConcat(a: seq<Message>, b: seq<Message>)
    requires b == [] || !IsTool(b[0])
    ensures LeadingTools(a + b) == LeadingTools(a)
  {
    hide LeadingTools, IsTool;
    LeadingToolsFrom(b);
    LeadingToolsFrom(a);
    if a == [] {
      assert a + b == b;
    } else {
      LeadingToolsConcat(a[1..], b);
      LeadingToolsFrom(a + b);
      assert (a + b)[1..] == a[1..] + b && (a + b)[0] == a[0];
    }
  }

  lemma {:induction false} LeadingToolsFrom(ms: seq<Message>)
    ensures LeadingTools(ms) == if ms != [] && IsTool(ms[0]) then [ms[0]] + LeadingTools(ms[1..]) else []
  {
    hide IsTool;
  }

  lemma {:induction false} ImageLooksAtTools(m: Message, r: seq<Message>, s: seq<Message>, style: Style)
    requires LeadingTools(r) == LeadingTools(s)
    ensures Image(m, r, style) == Image(m, s, style)
  {
  }

  /** The messages that have nothing to do with tools, in order. */
  function Others(ms: seq<Message>): seq<Message>
  {
    if ms == [] then [] else (if IsOther(ms[0]) then [ms[0]] else []) + Others(ms[1..])
  }

  lemma {:induction false} OthersConcat(a: seq<Message>, b: seq<Message>)
    ensures Others(a + b) == Others(a) + Others(b)
  {
    hide IsOther;
    if a == [] {
      assert a + b == b;
    } else {
      OthersConcat(a[1..], b);
      assert (a + b)[1..] == a[1..] + b && (a + b)[0] == a[0];
      Assoc(if IsOther(a[0]) then [a[0]] else [], Others(a[1..]), Others(b));
    }
  }

  /** Nothing outside the tool exchange is lost, added or moved. */
  lemma {:induction false} OthersStay(ms: seq<Message>, style: Style)
    requires !(style.Stored? && style.preservePartial)
    ensures Others(Normalize(ms, style)) == Others(ms)
  {
    hide Image;
    if ms != [] {
      OthersStay(ms[1..], style);
      OthersConcat(Image(ms[0], ms[1..], style), Normalize(ms[1..], style));
      OthersOfImage(ms[0], ms[1..], style);
    }
  }

  /** The others and, in their places, what assistant messages whose calls all
      went unanswered had to say. */
  function OthersAndTexts(ms: seq<Message>): seq<Message>
  {
    if ms == [] then []
    else (if IsOther(ms[0]) then [ms[0]] else Left(ms[0], ms[1..], Stored(true))) + OthersAndTexts(ms[1..])
  }

  /** What stays of a calling message without any result. */
  function Left(m: Message, rest: seq<Message>, style: Style): seq<Message>
  {
    if IsCalling(m) && Pairs(m.calls, LeadingTools(rest)) == [] then Unanswered(m, style) else []
  }

  /** A cut-off turn also keeps the text of calls that were never answered. */
  lemma {:induction false} PartialTextsStay(ms: seq<Message>)
    ensures Others(Normalize(ms, Stored(true))) == OthersAndTexts(ms)
  {
    hide Image, Left;
    if ms != [] {
      PartialTextsStay(ms[1..]);
      OthersConcat(Image(ms[0], ms[1..], Stored(true)), Normalize(ms[1..], Stored(true)));
      OthersOfImage(ms[0], ms[1..], Stored(true));
    }
  }

  lemma {:induction false} OthersOfImage(m: Message, rest: seq<Message>, style: Style)
    ensures Others(Image(m, rest, style)) == if IsOther(m) then [m] else Left(m, rest, style)
    ensures !(style.Stored? && style.preservePartial) ==> Left(m, rest, style) == []
  {
    hide LeadingTools, Pairs, Expand, Meaningful;
    if IsCalling(m) {
      var tools := LeadingTools(rest);
      PairsMatch(m.calls, tools);
      OthersOfExpand(m, Pairs(m.calls, tools), style);
      OneOther(m.(calls := []));
    } else if IsOther(m) {
      OneOther(m);
    }
  }

  lemma {:induction false} OneOther(m: Message)
    ensures IsOther(m) ==> Others([m]) == [m]
    ensures Others([]) == []
  {
    assert [m][1..] == [];
  }

  lemma {:induction false} OthersOfExpand(m: Message, pairs: seq<Pair>, style: Style)
    requires m.role == Assistant && forall j | 0 <= j < |pairs| :: IsTool(pairs[j].tool)
    ensures Others(Expand(m, pairs, style)) == []
  {
    if pairs != [] {
      var n := |pairs| - 1;
      OthersOfExpand(m, pairs[..n], style);
      var two := [Split(m, pairs[n].call, n == 0, style), pairs[n].tool];
      OthersConcat(Expand(m, pairs[..n], style), two);
      assert !IsOther(two[0]) && !IsOther(two[1]) && two[1..][0] == two[1];
      assert Others(two[1..][1..]) == [] && Others(two[1..]) == [];
    }
  }

  /** No answered call is lost: a call whose result is among the results that
      follow its message comes out directly before the first such result. */
  lemma {:induction false} AnsweredCallsStay(ms: seq<Message>, i: nat, c: nat, t: nat, style: Style) returns (j: nat)
    requires i < |ms| && IsCalling(ms[i]) && c < |ms[i].calls|
    requires i < t < |ms| && (forall k | i < k <= t :: IsTool(ms[k]))
    requires ms[t].toolCallId == ms[i].calls[c].id != ""
    requires forall k | i < k < t :: ms[k].toolCallId != ms[t].toolCallId
    ensures j + 1 < |Normalize(ms, style)|
    ensures Normalize(ms, style)[j].calls == [ReindexCall(ms[i].calls[c], style)]
    ensures Normalize(ms, style)[j + 1] == ms[t]
  {
    hide Image;
    if i > 0 {
      var k := AnsweredCallsStay(ms[1..], i - 1, c, t - 1, style);
      j := |Image(ms[0], ms[1..], style)| + k;
    } else {
      j := AnsweredInImage(ms[0], ms[1..], c, t - 1, style);
    }
  }

  lemma {:induction false} AnsweredInImage(m: Message, rest: seq<Message>, c: nat, t: nat, style: Style)
    returns (j: nat)
    requires IsCalling(m) && c < |m.calls| && t < |rest|
    requires forall k | 0 <= k <= t :: IsTool(rest[k])
    requires rest[t].toolCallId == m.calls[c].id != ""
    requires forall k | 0 <= k < t :: rest[k].toolCallId != rest[t].toolCallId
    ensures j + 1 < |Image(m, rest, style)|
    ensures Image(m, rest, style)[j].calls == [ReindexCall(m.calls[c], style)]
    ensures Image(m, rest, style)[j + 1] == rest[t]
  {
    hide LeadingTools, FirstResult, Pairs, Expand;
    var tools := LeadingTools(rest);
    assert |tools| < |rest| ==> !IsTool(rest[|tools|]);
    FirstIsFirst(tools, t, m.calls[c].id);
    var p := AnsweredInPairs(m.calls, tools, c);
    j := 2 * p;
    ExpandAt(m, Pairs(m.calls, tools), p, style);
  }

  lemma {:induction false} FirstIsFirst(tools: seq<Message>, t: nat, id: string)
    requires t < |tools| && tools[t].toolCallId == id != ""
    requires forall k | 0 <= k < t :: tools[k].toolCallId != id
    ensures FirstResult(tools, id) == Some(tools[t])
    ensures forall n | 0 <= n <= t :: FirstResult(tools[..n], id) == None
  {
    forall n | 0 <= n <= t ensures FirstResult(tools[..n], id) == None { NotThere(tools[..n], id); }
    if t < |tools| - 1 {
      FirstIsFirst(tools[..|tools| - 1], t, id);
    }
  }

  lemma {:induction false} NotThere(tools: seq<Message>, id: string)
    requires forall k | 0 <= k < |tools| :: tools[k].toolCallId != id
    ensures FirstResult(tools, id) == None
  {
    if tools != [] {
      NotThere(tools[..|tools| - 1], id);
    }
  }

  lemma {:induction false} AnsweredInPairs(calls: seq<Call>, tools: seq<Message>, c: nat) returns (p: nat)
    requires c < |calls| && FirstResult(tools, calls[c].id).Some?
    ensures p < |Pairs(calls, tools)| && Pairs(calls, tools)[p] == Pair(calls[c], FirstResult(tools, calls[c].id).value)
  {
    hide FirstResult;
    var n := |calls| - 1;
    if c < n {
      p := AnsweredInPairs(calls[..n], tools, c);
    } else {
      p := |Pairs(calls[..n], tools)|;
    }
  }

  lemma {:induction false} ExpandAt(m: Message, pairs: seq<Pair>, p: nat, style: Style)
    requires p < |pairs|
    ensures |Expand(m, pairs, style)| == 2 * |pairs|
    ensures Expand(m, pairs, style)[2 * p].calls == [ReindexCall(pairs[p].call, style)]
    ensures Expand(m, pairs, style)[2 * p + 1] == pairs[p].tool
  {
    var n := |pairs| - 1;
    if n > 0 {
      ExpandAt(m, pairs[..n], if p < n then p else 0, style);
    }
  }

  // ----- What becomes of a message with answered calls -----

  /** rest[t] is the first of the results right behind a message that answers
      the id. */
  predicate FirstAnswer(rest: seq<Message>, t: nat, id: string)
  {
    && t < |rest| && id != "" && rest[t].toolCallId == id
    && (forall k | 0 <= k <= t :: IsTool(rest[k])) && (forall k | 0 <= k < t :: rest[k].toolCallId != id)
  }

  ghost predicate HasAnswer(rest: seq<Message>, id: string)
  {
    exists t: nat :: FirstAnswer(rest, t, id)
  }

  /** Some call of the message is answered. */
  ghost predicate Answered(m: Message, rest: seq<Message>)
  {
    exists c :: 0 <= c < |m.calls| && HasAnswer(rest, m.calls[c].id)
  }

  /** The answered calls, in the order of the calls. */
  ghost predicate AnsweredCalls(m: Message, rest: seq<Message>, idx: seq<nat>)
  {
    && (forall q | 0 <= q < |idx| :: idx[q] < |m.calls| && HasAnswer(rest, m.calls[idx[q]].id))
    && (forall p, q | 0 <= p < q < |idx| :: idx[p] < idx[q])
    && (forall c | 0 <= c < |m.calls| && HasAnswer(rest, m.calls[c].id) :: c in idx)
  }

  /** The message with one of its calls; text and media come with the first. */
  predicate IsShare(a: Message, m: Message, call: Call, first: bool, style: Style)
  {
    && a.role == m.role && a.reasoning == m.reasoning && a.toolCallId == m.toolCallId
    && a.calls == [if style.Replay? then Call(call.id, None, call.body) else call]
    && (if first then a.content == m.content && a.userParts == m.userParts && a.legacyParts == m.legacyParts
                      && a.genParts == m.genParts
        else a.content == "" && a.userParts == [] && a.legacyParts == [] && a.genParts == [])
  }

  /** The messages are a share and a result for each answered call, in the order
      of the calls. */
  ghost predicate SharesOf(m: Message, rest: seq<Message>, idx: seq<nat>, out: seq<Message>, style: Style)
  {
    && AnsweredCalls(m, rest, idx) && |out| == 2 * |idx|
    && forall q | 0 <= q < |idx| ::
         && IsShare(out[2 * q], m, m.calls[idx[q]], q == 0, style)
         && exists t: nat :: FirstAnswer(rest, t, m.calls[idx[q]].id) && out[2 * q + 1] == rest[t]
  }

  lemma {:induction false} FirstResultAt(tools: seq<Message>, id: string) returns (t: nat)
    requires FirstResult(tools, id).Some?
    ensures t < |tools| && tools[t] == FirstResult(tools, id).value && id != ""
    ensures tools[t].toolCallId == id && forall k | 0 <= k < t :: tools[k].toolCallId != id
  {
    var n := |tools| - 1;
    if FirstResult(tools[..n], id).Some? {
      t := FirstResultAt(tools[..n], id);
      assert forall k | 0 <= k < n :: tools[..n][k] == tools[k];
    } else {
      t := n;
      forall k | 0 <= k < n ensures tools[k].toolCallId != id {
        if tools[k].toolCallId == id {
          SomeResult(tools[..n], k, id);
        }
      }
    }
  }

  lemma {:induction false} SomeResult(tools: seq<Message>, k: nat, id: string)
    requires k < |tools| && id != "" && tools[k].toolCallId == id
    ensures FirstResult(tools, id).Some?
  {
    if k < |tools| - 1 {
      SomeResult(tools[..|tools| - 1], k, id);
    }
  }

  lemma {:induction false} AnswerIsFirstResult(rest: seq<Message>, id: string)
    ensures var r := FirstResult(LeadingTools(rest), id);
            && (r.Some? <==> HasAnswer(rest, id))
            && (r.Some? ==> exists t: nat :: FirstAnswer(rest, t, id) && r.value == rest[t])
  {
    hide FirstResult, LeadingTools;
    var tools := LeadingTools(rest);
    assert forall k | 0 <= k < |tools| :: tools[k] == rest[k];
    if FirstResult(tools, id).Some? {
      var t := FirstResultAt(tools, id);
      assert FirstAnswer(rest, t, id);
    }
    if HasAnswer(rest, id) {
      var t :| FirstAnswer(rest, t, id);
      assert |tools| < |rest| ==> !IsTool(rest[|tools|]);
      SomeResult(tools, t, id);
    }
  }

  /** The positions of the calls with a result. */
  ghost function Positions(calls: seq<Call>, tools: seq<Message>): seq<nat>
  {
    if calls == [] then []
    else
      var n := |calls| - 1;
      Positions(calls[..n], tools) + if FirstResult(tools, calls[n].id).Some? then [n] else []
  }

  lemma {:induction false} PositionsRise(calls: seq<Call>, tools: seq<Message>)
    ensures forall q | 0 <= q < |Positions(calls, tools)| ::
              Positions(calls, tools)[q] < |calls| && FirstResult(tools, calls[Positions(calls, tools)[q]].id).Some?
    ensures forall p, q | 0 <= p < q < |Positions(calls, tools)| ::
              Positions(calls, tools)[p] < Positions(calls, tools)[q]
  {
    hide FirstResult;
    if calls != [] {
      PositionsRise(calls[..|calls| - 1], tools);
    }
  }

  lemma {:induction false} PositionsComplete(calls: seq<Call>, tools: seq<Message>, c: nat)
    requires c < |calls| && FirstResult(tools, calls[c].id).Some?
    ensures c in Positions(calls, tools)
  {
    hide FirstResult;
    var n := |calls| - 1;
    if c < n {
      PositionsComplete(calls[..n], tools, c);
    } else {
      assert Positions(calls, tools)[|Positions(calls[..n], tools)|] == n;
    }
  }

  lemma {:induction false} PairsAtPositions(calls: seq<Call>, tools: seq<Message>)
    ensures |Pairs(calls, tools)| == |Positions(calls, tools)|
    ensures forall q | 0 <= q < |Pairs(calls, tools)| ::
              var i := Positions(calls, tools)[q];
              && i < |calls| && FirstResult(tools, calls[i].id).Some?
              && Pairs(calls, tools)[q] == Pair(calls[i], FirstResult(tools, calls[i].id).value)
  {
    hide FirstResult;
    if calls != [] {
      PairsAtPositions(calls[..|calls| - 1], tools);
    }
  }

  lemma {:induction false} PairsAt(calls: seq<Call>, tools: seq<Message>) returns (idx: seq<nat>)
    ensures |idx| == |Pairs(calls, tools)|
    ensures forall q | 0 <= q < |idx| ::
              && idx[q] < |calls| && FirstResult(tools, calls[idx[q]].id).Some?
              && Pairs(calls, tools)[q] == Pair(calls[idx[q]], FirstResult(tools, calls[idx[q]].id).value)
    ensures forall p, q | 0 <= p < q < |idx| :: idx[p] < idx[q]
    ensures forall c | 0 <= c < |calls| && FirstResult(tools, calls[c].id).Some? :: c in idx
  {
    hide FirstResult, Pairs, Positions;
    idx := Positions(calls, tools);
    PositionsRise(calls, tools);
    PairsAtPositions(calls, tools);
    forall c | 0 <= c < |calls| && FirstResult(tools, calls[c].id).Some? ensures c in idx {
      PositionsComplete(calls, tools, c);
    }
  }

  lemma {:induction false} ExpandShares(m: Message, pairs: seq<Pair>, style: Style)
    ensures |Expand(m, pairs, style)| == 2 * |pairs|
    ensures forall q | 0 <= q < |pairs| ::
              && IsShare(Expand(m, pairs, style)[2 * q], m, pairs[q].call, q == 0, style)
              && Expand(m, pairs, style)[2 * q + 1] == pairs[q].tool
  {
    hide IsShare;
    if pairs != [] {
      var n := |pairs| - 1;
      ExpandShares(m, pairs[..n], style);
      SplitIsShare(m, pairs[n].call, n == 0, style);
      var init := Expand(m, pairs[..n], style);
      forall q | 0 <= q < |pairs| ensures
        && IsShare(Expand(m, pairs, style)[2 * q], m, pairs[q].call, q == 0, style)
        && Expand(m, pairs, style)[2 * q + 1] == pairs[q].tool
      {
        if q < n {
          assert pairs[..n][q] == pairs[q];
          assert Expand(m, pairs, style)[2 * q] == init[2 * q];
          assert Expand(m, pairs, style)[2 * q + 1] == init[2 * q + 1];
        }
      }
    }
  }

  lemma {:induction false} SplitIsShare(m: Message, call: Call, first: bool, style: Style)
    ensures IsShare(Split(m, call, first, style), m, call, first, style)
  {
  }

  lemma {:induction false} ImageShares(m: Message, rest: seq<Message>, style: Style) returns (idx: seq<nat>)
    requires IsCalling(m)
    ensures AnsweredCalls(m, rest, idx) && (idx != [] <==> Answered(m, rest))
    ensures idx != [] ==> SharesOf(m, rest, idx, Image(m, rest, style), style)
    ensures idx == [] ==> Image(m, rest, style) == Unanswered(m, style)
  {
    hide FirstResult, LeadingTools, Pairs, Expand, IsShare, HasAnswer, Unanswered;
    var tools := LeadingTools(rest);
    var pairs := Pairs(m.calls, tools);
    idx := PairsAt(m.calls, tools);
    forall id ensures FirstResult(tools, id).Some? <==> HasAnswer(rest, id) { AnswerIsFirstResult(rest, id); }
    assert AnsweredCalls(m, rest, idx);
    if idx != [] {
      assert HasAnswer(rest, m.calls[idx[0]].id);
      ExpandShares(m, pairs, style);
      var out := Image(m, rest, style);
      forall q | 0 <= q < |idx| ensures
        && IsShare(out[2 * q], m, m.calls[idx[q]], q == 0, style)
        && exists t: nat :: FirstAnswer(rest, t, m.calls[idx[q]].id) && out[2 * q + 1] == rest[t]
      {
        AnswerIsFirstResult(rest, m.calls[idx[q]].id);
      }
    }
  }

  /** In any history, a message with answered calls becomes, in one stretch, one
      message for each of them, in their order, each followed by its first
      result; only the first of them has the text and the media. */
  lemma {:induction false} SplitInOrder(ms: seq<Message>, i: nat, style: Style) returns (j: nat, idx: seq<nat>)
    requires i < |ms| && IsCalling(ms[i]) && Answered(ms[i], ms[i + 1..])
    ensures idx != [] && j + 2 * |idx| <= |Normalize(ms, style)|
    ensures SharesOf(ms[i], ms[i + 1..], idx, Normalize(ms, style)[j..j + 2 * |idx|], style)
  {
    hide Image, SharesOf, Answered, AnsweredCalls;
    NormalizeFrom(ms, style);
    var image, rest := Image(ms[0], ms[1..], style), Normalize(ms[1..], style);
    if i == 0 {
      j := 0;
      idx := ImageShares(ms[0], ms[1..], style);
      assert |image| == 2 * |idx| by { SharesLength(ms[0], ms[1..], idx, image, style); }
      assert (image + rest)[0..|image|] == image;
    } else {
      assert ms[1..][i - 1 + 1..] == ms[i + 1..];
      var k;
      k, idx := SplitInOrder(ms[1..], i - 1, style);
      j := |image| + k;
      assert (image + rest)[j..j + 2 * |idx|] == rest[k..k + 2 * |idx|];
    }
  }

  lemma {:induction false} SharesLength(m: Message, rest: seq<Message>, idx: seq<nat>, out: seq<Message>, style: Style)
    requires SharesOf(m, rest, idx, out, style)
    ensures |out| == 2 * |idx|
  {
  }

  // ----- Text and media come out once -----

  /** The text and the media of a message. */
  datatype Voice = Voice(content: string, userParts: seq<Part>, legacyParts: seq<LegacyPart>, genParts: seq<Part>)

  const SILENCE := Voice("", [], [], [])

  /** What a message says, unless it is a result or says nothing. */
  function VoiceOf(m: Message): seq<Voice>
  {
    var v := Voice(m.content, m.userParts, m.legacyParts, m.genParts);
    if IsTool(m) || v == SILENCE then [] else [v]
  }

  function Voices(ms: seq<Message>): seq<Voice>
  {
    if ms == [] then [] else VoiceOf(ms[0]) + Voices(ms[1..])
  }

  /** What is to be heard of a message: all others, whoever got an answer, and in
      a cut-off turn whoever has something to say or has thought. */
  ghost function Heard(m: Message, rest: seq<Message>, style: Style): seq<Voice>
  {
    var texts := TrimSpace(m.content) != "" || TrimSpace(m.reasoning) != "";
    if !IsCalling(m) || Answered(m, rest) || (style == Stored(true) && texts) then VoiceOf(m) else []
  }

  ghost function HeardAll(ms: seq<Message>, style: Style): seq<Voice>
  {
    if ms == [] then [] else Heard(ms[0], ms[1..], style) + HeardAll(ms[1..], style)
  }

  lemma {:induction false} VoicesConcat(a: seq<Message>, b: seq<Message>)
    ensures Voices(a + b) == Voices(a) + Voices(b)
  {
    hide VoiceOf;
    if a == [] {
      assert a + b == b;
    } else {
      VoicesConcat(a[1..], b);
      assert (a + b)[1..] == a[1..] + b && (a + b)[0] == a[0];
      Assoc(VoiceOf(a[0]), Voices(a[1..]), Voices(b));
    }
  }

  lemma {:induction false} VoicesOne(m: Message)
    ensures Voices([m]) == VoiceOf(m) && Voices([]) == []
  {
    assert [m][1..] == [];
  }

  lemma {:induction false} VoicesOfExpand(m: Message, pairs: seq<Pair>, style: Style)
    requires m.role == Assistant && forall j | 0 <= j < |pairs| :: IsTool(pairs[j].tool)
    ensures Voices(Expand(m, pairs, style)) == if pairs == [] then [] else VoiceOf(m)
  {
    hide Voices;
    VoicesOne(m);
    if pairs != [] {
      var n := |pairs| - 1;
      VoicesOfExpand(m, pairs[..n], style);
      var a, t := Split(m, pairs[n].call, n == 0, style), pairs[n].tool;
      VoicesConcat(Expand(m, pairs[..n], style), [a, t]);
      assert [a, t] == [a] + [t];
      VoicesConcat([a], [t]);
      VoicesOne(a);
      VoicesOne(t);
    }
  }

  lemma {:induction false} HeardIsImage(m: Message, rest: seq<Message>, style: Style)
    ensures Voices(Image(m, rest, style)) == Heard(m, rest, style)
  {
    hide LeadingTools, Pairs, Expand, Voices, Answered, TrimSpace, AnsweredCalls;
    VoicesOne(m);
    VoicesOne(m.(calls := []));
    if IsCalling(m) {
      var tools := LeadingTools(rest);
      var idx := ImageShares(m, rest, style);
      PairsMatch(m.calls, tools);
      VoicesOfExpand(m, Pairs(m.calls, tools), style);
      NoPairsNoShares(m, rest, idx, style);
    }
  }

  lemma {:induction false} NoPairsNoShares(m: Message, rest: seq<Message>, idx: seq<nat>, style: Style)
    requires AnsweredCalls(m, rest, idx)
    ensures idx == [] <==> Pairs(m.calls, LeadingTools(rest)) == []
  {
    hide FirstResult, LeadingTools, Pairs, HasAnswer;
    var tools := LeadingTools(rest);
    var pos := PairsAt(m.calls, tools);
    if idx != [] {
      AnswerIsFirstResult(rest, m.calls[idx[0]].id);
    }
    if pos != [] {
      AnswerIsFirstResult(rest, m.calls[pos[0]].id);
    }
  }

  /** Normalising keeps the texts and the media of all messages but those whose
      calls went unanswered, in their order and each once; a cut-off turn keeps
      those as well. */
  lemma {:induction false} SpokenOnce(ms: seq<Message>, style: Style)
    ensures Voices(Normalize(ms, style)) == HeardAll(ms, style)
  {
    hide Image, Heard;
    if ms != [] {
      SpokenOnce(ms[1..], style);
      VoicesConcat(Image(ms[0], ms[1..], style), Normalize(ms[1..], style));
      HeardIsImage(ms[0], ms[1..], style);
    }
  }
}
