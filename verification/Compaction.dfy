/** The checkpoint a compressed conversation continues from: a summary and a
    window of recent messages inside one token budget. */
module Compaction {
  import opened Sequences
  import opened Text

  const ELLIPSIS := "\U{2026}"

  predicate Within(text: string, budget: int)
  {
    EstimateTextTokens(text) <= budget
  }

  // ----- Cutting a text at a token budget -----

  /** The longest prefix within a budget, as a length. */
  function Longest(text: string, n: nat, budget: nat): (k: nat)
    requires n <= |text|
    ensures k <= n && Within(text[..k], budget)
  {
    if n == 0 || Within(text[..n], budget) then n else Longest(text, n - 1, budget)
  }

  function Truncate(text: string, budget: int): string
  {
    if budget <= 0 || text == "" then ""
    else if Within(text, budget) then text
    else if budget == 1 then ELLIPSIS
    else text[..Longest(text, |text|, budget - 1)] + ELLIPSIS
  }

  lemma {:induction false} LongestIsLongest(text: string, n: nat, budget: nat, k: nat)
    requires n <= |text| && k <= n
    ensures k <= Longest(text, n, budget) <==> Within(text[..k], budget)
  {
    hide ByteLen;
    if Within(text[..n], budget) {
      ByteLenPrefix(text, k, n);
    } else if k < n {
      LongestIsLongest(text, n - 1, budget, k);
    } else {
      ByteLenPrefix(text, Longest(text, n, budget), n);
      assert Within(text[..Longest(text, n, budget)], budget);
    }
  }

  method TruncateTextToTokens(text: string, budget: int) returns (r: string)
    ensures r == Truncate(text, budget)
  {
    hide ByteLen, Longest;
    if budget <= 0 || text == "" {
      return "";
    }
    if EstimateTextTokens(text) <= budget {
      return text;
    }
    if budget == 1 {
      return ELLIPSIS;
    }
    var lo, hi := 0, |text|;
    while lo < hi
      invariant 0 <= lo <= Longest(text, |text|, budget - 1) <= hi <= |text|
    {
      var mid := (lo + hi + 1) / 2;
      LongestIsLongest(text, |text|, budget - 1, mid);
      if EstimateTextTokens(text[..mid]) <= budget - 1 {
        lo := mid;
      } else {
        hi := mid - 1;
      }
    }
    return text[..lo] + ELLIPSIS;
  }

  lemma {:induction false} EllipsisBytes()
    ensures ByteLen(ELLIPSIS) == 3
  {
    assert ELLIPSIS[..0] == "";
  }

  /** The cut keeps within the budget, and never cuts to nothing. */
  lemma {:induction false} TruncateFits(text: string, budget: int)
    ensures budget >= 0 ==> Within(Truncate(text, budget), budget)
    ensures budget > 0 && text != "" ==> Truncate(text, budget) != ""
  {
    hide Longest;
    EllipsisBytes();
    if budget > 1 && !Within(text, budget) {
      var prefix := text[..Longest(text, |text|, budget - 1)];
      hide ByteLen;
      ByteLenConcat(prefix, ELLIPSIS);
    }
  }

  /** A text that is cut is cut at the longest prefix that leaves a token for
      the mark. */
  lemma {:induction false} TruncateIsLongest(text: string, budget: int)
    requires budget > 1 && !Within(text, budget)
    ensures exists k: nat :: k < |text| && Truncate(text, budget) == text[..k] + ELLIPSIS
                        && Within(text[..k], budget - 1) && !Within(text[..k + 1], budget - 1)
  {
    hide ByteLen, Longest;
    var k := Longest(text, |text|, budget - 1);
    assert text[..|text|] == text;
    if k < |text| {
      LongestIsLongest(text, |text|, budget - 1, k + 1);
    }
    assert text != "" by { assert ByteLen("") == 0 by { AsciiByteLen(""); } }
  }

  /** A larger budget never gives a shorter text. */
  lemma {:induction false} TruncateMonotone(text: string, a: int, b: int)
    requires 1 <= a <= b
    ensures ByteLen(Truncate(text, a)) <= ByteLen(Truncate(text, b))
  {
    hide ByteLen, Longest;
    if text != "" && !Within(text, a) {
      EllipsisBytes();
      var j := if a == 1 then 0 else Longest(text, |text|, a - 1);
      assert a == 1 ==> text[..0] + ELLIPSIS == ELLIPSIS;
      ByteLenConcat(text[..j], ELLIPSIS);
      assert ByteLen(text[..j]) <= 3 * (a - 1) by { assert text[..0] == ""; AsciiByteLen(""); }
      if !Within(text, b) {
        var k := Longest(text, |text|, b - 1);
        ByteLenConcat(text[..k], ELLIPSIS);
        if a > 1 {
          LongestIsLongest(text, |text|, b - 1, j);
          ByteLenPrefix(text, j, k);
        } else if b > 1 {
          ByteLenPrefix(text, 0, k);
        }
      }
    }
  }

  // ----- The window of recent messages -----

  /** A stored message as far as it decodes. */
  datatype Message = Message(role: string, content: string)

  datatype Part = Part(speaker: string, content: string)

  function Label(role: string): string
  {
    if role == "user" then "\U{7528}\U{6237}"
    else if role == "assistant" then "\U{52A9}\U{624B}"
    else if role == "tool" then "\U{5DE5}\U{5177}\U{7ED3}\U{679C}"
    else role
  }

  function Parts(messages: seq<Option<Message>>): (parts: seq<Part>)
    ensures |parts| <= |messages|
    ensures forall k | 0 <= k < |parts| :: parts[k].content != ""
  {
    if messages == [] then []
    else
      var m := messages[|messages| - 1];
      Parts(messages[..|messages| - 1])
      + if m.None? || TrimSpace(m.value.content) == "" then []
        else [Part(Label(m.value.role), TrimSpace(m.value.content))]
  }

  const COLON := "\U{FF1A}"
  const GAP := "\n\n"

  function Piece(part: Part, allocation: int): string
  {
    part.speaker + COLON + Truncate(part.content, allocation)
  }

  function Render(parts: seq<Part>, allocations: seq<int>): string
    requires |parts| == |allocations|
  {
    var n := |parts| - 1;
    if n < 0 then ""
    else if n == 0 then Piece(parts[0], allocations[0])
    else Render(parts[..n], allocations[..n]) + GAP + Piece(parts[n], allocations[n])
  }

  predicate Fits(parts: seq<Part>, allocations: seq<int>, budget: int)
    requires |parts| == |allocations|
  {
    Within(Render(parts, allocations), budget)
  }

  predicate FitsWith(parts: seq<Part>, allocations: seq<int>, i: nat, v: int, budget: int)
    requires i < |parts| == |allocations|
  {
    Fits(parts, allocations[i := v], budget)
  }

  /** The estimate for everything but the contents. */
  function Overhead(parts: seq<Part>): nat
  {
    LabelTokens(parts) + EstimateCharTokens(2 * (|parts| - 1))
  }

  function LabelTokens(parts: seq<Part>): nat
  {
    if parts == [] then 0
    else LabelTokens(parts[..|parts| - 1]) + EstimateTextTokens(parts[|parts| - 1].speaker + COLON)
  }

  /** The equal share every part starts with. */
  function Share(parts: seq<Part>, budget: int): (share: int)
    requires parts != []
    ensures share >= 1
  {
    var content := budget - Overhead(parts);
    if content < |parts| then 1 else content / |parts|
  }

  function Equal(n: nat, share: int): (s: seq<int>)
    ensures |s| == n && forall k | 0 <= k < n :: s[k] == share
  {
    seq(n, k => share)
  }

  /** The allocations while part i is searched: the newer ones are final, the
      older ones still hold their share. */
  function Stage(share: int, final: seq<int>, i: nat): (s: seq<int>)
    requires i <= |final|
    ensures |s| == |final|
  {
    Equal(i, share) + final[i..]
  }

  /** What the search leaves: going from the newest part to the oldest, each
      gets the largest allocation between its share and its own size with
      which the window still fits, or keeps its share. */
  ghost predicate Largest(parts: seq<Part>, budget: int, share: int, final: seq<int>, i: nat)
    requires i < |parts| == |final|
  {
    var size := EstimateTextTokens(parts[i].content);
    && share <= final[i] && (final[i] > share ==> final[i] <= size)
    && (final[i] > share ==> Fits(parts, Stage(share, final, i), budget))
    && (forall v | final[i] < v <= size :: !FitsWith(parts, Stage(share, final, i), i, v, budget))
  }

  // ----- Sizes -----

  function PieceBytes(part: Part, allocation: int): nat
  {
    ByteLen(part.speaker + COLON) + ByteLen(Truncate(part.content, allocation))
  }

  function Bytes(parts: seq<Part>, allocations: seq<int>): nat
    requires |parts| == |allocations|
  {
    var n := |parts| - 1;
    if n < 0 then 0 else Bytes(parts[..n], allocations[..n]) + PieceBytes(parts[n], allocations[n])
  }

  lemma {:induction false} RenderBytes(parts: seq<Part>, allocations: seq<int>)
    requires |parts| == |allocations|
    ensures ByteLen(Render(parts, allocations))
         == Bytes(parts, allocations) + if parts == [] then 0 else 2 * (|parts| - 1)
  {
    hide ByteLen, Truncate;
    var n := |parts| - 1;
    if n < 0 {
      AsciiByteLen("");
    } else {
      var piece := Piece(parts[n], allocations[n]);
      ByteLenConcat(parts[n].speaker + COLON, Truncate(parts[n].content, allocations[n]));
      RenderBytes(parts[..n], allocations[..n]);
      if n > 0 {
        AsciiByteLen(GAP);
        ByteLenConcat(Render(parts[..n], allocations[..n]), GAP);
        ByteLenConcat(Render(parts[..n], allocations[..n]) + GAP, piece);
      }
    }
  }

  lemma {:induction false} BytesMonotone(parts: seq<Part>, a: seq<int>, b: seq<int>)
    requires |parts| == |a| == |b|
    requires forall k | 0 <= k < |a| :: 1 <= a[k] <= b[k]
    ensures Bytes(parts, a) <= Bytes(parts, b)
  {
    hide ByteLen, Truncate;
    var n := |parts| - 1;
    if n >= 0 {
      BytesMonotone(parts[..n], a[..n], b[..n]);
      TruncateMonotone(parts[n].content, a[n], b[n]);
    }
  }

  /** More room for any part never makes the window smaller. */
  lemma {:induction false} FitsMonotone(parts: seq<Part>, a: seq<int>, b: seq<int>, budget: int)
    requires |parts| == |a| == |b|
    requires forall k | 0 <= k < |a| :: 1 <= a[k] <= b[k]
    requires Fits(parts, b, budget)
    ensures Fits(parts, a, budget)
  {
    hide ByteLen, Render, Bytes;
    RenderBytes(parts, a);
    RenderBytes(parts, b);
    BytesMonotone(parts, a, b);
  }

  lemma {:induction false} EqualBytes(parts: seq<Part>, share: int)
    requires share >= 1
    ensures EstimateCharTokens(Bytes(parts, Equal(|parts|, share))) <= LabelTokens(parts) + |parts| * share
  {
    hide ByteLen, Truncate;
    var n := |parts| - 1;
    if n >= 0 {
      EqualBytes(parts[..n], share);
      assert Equal(n + 1, share)[..n] == Equal(n, share);
      TruncateFits(parts[n].content, share);
      assert n * share + share == (n + 1) * share;
    }
  }

  /** With room for the labels and a token for each part, the equal shares
      fit. */
  lemma {:induction false} EqualFits(parts: seq<Part>, budget: int)
    requires parts != [] && budget >= Overhead(parts) + |parts|
    ensures Fits(parts, Equal(|parts|, Share(parts, budget)), budget)
  {
    hide ByteLen, Render, Bytes, LabelTokens;
    var share := Share(parts, budget);
    EqualBytes(parts, share);
    RenderBytes(parts, Equal(|parts|, share));
    assert |parts| * share <= budget - Overhead(parts);
  }

  // ----- The search -----

  /** The largest allocation of part i, by bisection over an array that holds
      the others. */
  method SearchAllocation(parts: seq<Part>, budget: int, share: int, allocations: array<int>, i: nat)
    requires i < |parts| == allocations.Length && 1 <= share == allocations[i]
    requires forall k | 0 <= k < allocations.Length :: allocations[k] >= 1
    modifies allocations
    ensures allocations[..] == old(allocations[..])[i := allocations[i]]
    ensures var size := EstimateTextTokens(parts[i].content);
            && share <= allocations[i] && (allocations[i] > share ==> allocations[i] <= size)
            && (allocations[i] > share ==> Fits(parts, allocations[..], budget))
            && (forall v | allocations[i] < v <= size :: !FitsWith(parts, old(allocations[..]), i, v, budget))
  {
    hide EstimateTextTokens, Render;
    var low, high := allocations[i], EstimateTextTokens(parts[i].content);
    ghost var size := high;
    ghost var before := allocations[..];
    while low < high
      invariant share <= low && (low > share ==> low <= size) && high <= size && (low <= high || low == share)
      invariant allocations[..] == before[i := allocations[i]]
      invariant low > share ==> Fits(parts, before[i := low], budget)
      invariant forall v | high < v <= size && low < v :: !FitsWith(parts, before, i, v, budget)
    {
      var mid := (low + high + 1) / 2;
      allocations[i] := mid;
      assert allocations[..] == before[i := mid];
      var rendered := RenderAll(parts, allocations);
      if EstimateTextTokens(rendered) <= budget {
        low := mid;
      } else {
        forall v | mid <= v <= size ensures !FitsWith(parts, before, i, v, budget) {
          if Fits(parts, before[i := v], budget) {
            FitsMonotone(parts, before[i := mid], before[i := v], budget);
          }
        }
        high := mid - 1;
      }
    }
    allocations[i] := low;
    assert allocations[..] == before[i := low];
  }

  /** The closure that renders with the present allocations. */
  method RenderAll(parts: seq<Part>, allocations: array<int>) returns (text: string)
    requires |parts| == allocations.Length
    ensures text == Render(parts, allocations[..])
  {
    hide Piece;
    text := "";
    for i := 0 to |parts|
      invariant text == Render(parts[..i], allocations[..i])
    {
      assert parts[..i + 1][..i] == parts[..i] && allocations[..i + 1][..i] == allocations[..i];
      text := if i == 0 then Piece(parts[0], allocations[0]) else text + GAP + Piece(parts[i], allocations[i]);
    }
    assert parts[..|parts|] == parts && allocations[..|parts|] == allocations[..];
  }

  /** From the newest part to the oldest. */
  method SearchAllocations(parts: seq<Part>, budget: int, share: int) returns (final: seq<int>)
    requires parts != [] && share >= 1
    ensures |final| == |parts| && forall i | 0 <= i < |parts| :: Largest(parts, budget, share, final, i)
  {
    var allocations := new int[|parts|];
    for k := 0 to |parts|
      invariant forall j | 0 <= j < k :: allocations[j] == share
    {
      allocations[k] := share;
    }
    hide Render, EstimateTextTokens, Largest, Fits, FitsWith;
    var i := |parts|;
    final := allocations[..];
    while i > 0
      invariant 0 <= i <= |parts| && final == allocations[..]
      invariant final == Stage(share, final, i)
      invariant forall k | 0 <= k < |final| :: final[k] >= share
      invariant forall k | i <= k < |parts| :: Largest(parts, budget, share, final, k)
    {
      i := i - 1;
      ghost var before := final;
      SearchAllocation(parts, budget, share, allocations, i);
      final := allocations[..];
      ghost var found := final;
      forall k | i <= k < |parts| ensures Largest(parts, budget, share, found, k) {
        StillLargest(parts, budget, share, before, found, i, k);
      }
    }
  }

  /** The allocation just found leaves the newer ones the largest. */
  lemma {:induction false} StillLargest(parts: seq<Part>, budget: int, share: int, before: seq<int>,
                                        found: seq<int>, i: nat, k: nat)
    requires i <= k < |parts| == |before| == |found|
    requires before == Stage(share, before, i + 1) && found == before[i := found[i]]
    requires k > i ==> Largest(parts, budget, share, before, k)
    requires k == i ==> var size := EstimateTextTokens(parts[i].content);
               && share <= found[i] && (found[i] > share ==> found[i] <= size)
               && (found[i] > share ==> Fits(parts, found, budget))
               && (forall v | found[i] < v <= size :: !FitsWith(parts, before, i, v, budget))
    ensures Largest(parts, budget, share, found, k)
  {
    hide Render, EstimateTextTokens;
    if k > i {
      assert Stage(share, found, k) == Stage(share, before, k);
    } else {
      assert found == Stage(share, found, i);
      var size := EstimateTextTokens(parts[i].content);
      forall v | found[i] < v <= size ensures !FitsWith(parts, Stage(share, found, i), i, v, budget) {
        assert !FitsWith(parts, before, i, v, budget);
        assert before[i := v] == Stage(share, found, i)[i := v];
      }
      assert share <= found[i] && (found[i] > share ==> found[i] <= size);
      assert found[i] > share ==> Fits(parts, Stage(share, found, i), budget);
    }
  }

  /** The window fits exactly when the equal shares fit. */
  lemma {:induction false} WindowFits(parts: seq<Part>, budget: int, share: int, final: seq<int>)
    requires parts != [] && share >= 1 && |final| == |parts|
    requires forall i | 0 <= i < |parts| :: Largest(parts, budget, share, final, i)
    ensures Fits(parts, final, budget) <==> Fits(parts, Equal(|parts|, share), budget)
  {
    hide Render, EstimateTextTokens, Fits, Largest;
    var n := |parts|;
    forall i | 0 <= i < n ensures final[i] >= share { LargestStart(parts, budget, share, final, i); }
    if Fits(parts, Equal(n, share), budget) {
      assert Stage(share, final, n) == Equal(n, share);
      StagesFit(parts, budget, share, final, 0);
      assert Stage(share, final, 0) == final;
    }
    if Fits(parts, final, budget) {
      FitsMonotone(parts, Equal(n, share), final, budget);
    }
  }

  lemma {:induction false} LargestStart(parts: seq<Part>, budget: int, share: int, final: seq<int>, i: nat)
    requires i < |parts| == |final| && Largest(parts, budget, share, final, i)
    ensures final[i] >= share
    ensures final[i] > share ==> Fits(parts, Stage(share, final, i), budget)
  {
    hide Fits;
  }

  lemma {:induction false} StagesFit(parts: seq<Part>, budget: int, share: int, final: seq<int>, i: nat)
    requires i <= |parts| == |final|
    requires forall k | 0 <= k < |parts| :: Largest(parts, budget, share, final, k)
    requires Fits(parts, Stage(share, final, |parts|), budget)
    ensures Fits(parts, Stage(share, final, i), budget)
    decreases |parts| - i
  {
    hide Render, Fits, Largest;
    if i < |parts| {
      StagesFit(parts, budget, share, final, i + 1);
      LargestStart(parts, budget, share, final, i);
      if final[i] == share {
        assert Stage(share, final, i) == Stage(share, final, i + 1);
      }
    }
  }

  function Recent(messages: seq<Option<Message>>, n: int): seq<Part>
  {
    if n <= 0 then [] else Parts(messages[if |messages| <= n then 0 else |messages| - n..])
  }

  lemma {:induction false} PartsConcat(a: seq<Option<Message>>, b: seq<Option<Message>>)
    ensures Parts(a + b) == Parts(a) + Parts(b)
  {
    hide TrimSpace, Label;
    if b == [] {
      assert a + b == a;
    } else {
      var init, m := b[..|b| - 1], b[|b| - 1];
      PartsConcat(a, init);
      assert (a + b)[..|a + b| - 1] == a + init && (a + b)[|a + b| - 1] == m;
      Assoc(Parts(a), Parts(init),
            if m.None? || TrimSpace(m.value.content) == "" then []
            else [Part(Label(m.value.role), TrimSpace(m.value.content))]);
    }
  }

  /** What came before the last n messages is never shown. */
  lemma {:induction false} RecentIsTheEnd(a: seq<Option<Message>>, b: seq<Option<Message>>, n: int)
    requires |b| >= n > 0
    ensures Recent(a + b, n) == Recent(b, n)
  {
    hide Parts;
    assert (a + b)[|a + b| - n..] == b[|b| - n..];
    assert b[0..] == b && (a + b)[0..] == a + b;
  }

  /** Of no more than n messages, those that decode and say something are shown,
      one by one and in order. */
  lemma {:induction false} RecentShows(a: seq<Option<Message>>, m: Option<Message>, b: seq<Option<Message>>, n: int)
    requires |a| + 1 + |b| <= n
    ensures var shown := m.Some? && TrimSpace(m.value.content) != "";
            Recent(a + [m] + b, n)
            == Recent(a, n) + (if shown then [Part(Label(m.value.role), TrimSpace(m.value.content))] else [])
               + Recent(b, n)
  {
    hide TrimSpace, Label;
    var all := a + [m] + b;
    assert all[0..] == all && a[0..] == a && b[0..] == b;
    PartsConcat(a + [m], b);
    PartsConcat(a, [m]);
    assert [m][..0] == [] && Parts([]) == [];
  }

  /** The newest message is shown last, under its speaker's name. */
  lemma {:induction false} NewestIsShownLast(messages: seq<Option<Message>>, n: int)
    requires n > 0 && messages != [] && messages[|messages| - 1].Some?
    requires TrimSpace(messages[|messages| - 1].value.content) != ""
    ensures var m, shown := messages[|messages| - 1].value, Recent(messages, n);
            && shown != [] && shown[|shown| - 1].content == TrimSpace(m.content)
            && (m.role == "user" ==> shown[|shown| - 1].speaker == "\U{7528}\U{6237}")
            && (m.role == "assistant" ==> shown[|shown| - 1].speaker == "\U{52A9}\U{624B}")
            && (m.role == "tool" ==> shown[|shown| - 1].speaker == "\U{5DE5}\U{5177}\U{7ED3}\U{679C}")
            && (m.role !in {"user", "assistant", "tool"} ==> shown[|shown| - 1].speaker == m.role)
  {
    hide TrimSpace;
    var k := |messages| - 1;
    var last := messages[k];
    assert messages == messages[..k] + [last];
    var part := Part(Label(last.value.role), TrimSpace(last.value.content));
    LastPart(messages[if |messages| <= n then 0 else |messages| - n..]);
  }

  lemma {:induction false} LastPart(messages: seq<Option<Message>>)
    requires messages != [] && messages[|messages| - 1].Some?
    requires TrimSpace(messages[|messages| - 1].value.content) != ""
    ensures var m, parts := messages[|messages| - 1].value, Parts(messages);
            parts != [] && parts[|parts| - 1] == Part(Label(m.role), TrimSpace(m.content))
  {
    hide TrimSpace, Label;
  }

  function FullLines(parts: seq<Part>): seq<string>
  {
    if parts == [] then []
    else FullLines(parts[..|parts| - 1]) + [parts[|parts| - 1].speaker + COLON + parts[|parts| - 1].content]
  }

  /** With room for all of them, the parts are rendered in full, oldest first. */
  lemma {:induction false} RenderedInFull(parts: seq<Part>, allocations: seq<int>)
    requires |parts| == |allocations|
    requires forall k | 0 <= k < |parts| :: allocations[k] >= Max(EstimateTextTokens(parts[k].content), 1)
    ensures Render(parts, allocations) == Join(FullLines(parts), GAP)
  {
    hide EstimateTextTokens, Join;
    var n := |parts| - 1;
    if n < 0 {
      JoinShort(GAP, "");
    } else {
      var line := parts[n].speaker + COLON + parts[n].content;
      FullPiece(parts[n], allocations[n]);
      RenderedInFull(parts[..n], allocations[..n]);
      if n == 0 {
        JoinShort(GAP, line);
        assert FullLines(parts) == [line];
      } else {
        JoinSnoc(FullLines(parts[..n]), line, GAP);
      }
    }
  }

  lemma {:induction false} FullPiece(part: Part, allocation: int)
    requires allocation >= Max(EstimateTextTokens(part.content), 1)
    ensures Piece(part, allocation) == part.speaker + COLON + part.content
  {
    hide EstimateTextTokens;
  }

  lemma {:induction false} JoinShort(sep: string, line: string)
    ensures Join([], sep) == "" && Join([line], sep) == line
  {
  }

  lemma {:induction false} JoinSnoc(lines: seq<string>, line: string, sep: string)
    requires lines != []
    ensures Join(lines + [line], sep) == Join(lines, sep) + sep + line
  {
    var all := lines + [line];
    assert all[1..] == lines[1..] + [line];
    if |lines| == 1 {
      assert lines[1..] == [];
      JoinShort(sep, line);
    } else {
      JoinSnoc(lines[1..], line, sep);
    }
  }

  /** What the window shows, whatever the budget: every part, each cut at its
      own allocation. */
  ghost predicate Window(parts: seq<Part>, budget: int, text: string, final: seq<int>)
    requires parts != []
  {
    && |final| == |parts| && text == Render(parts, final)
    && forall i | 0 <= i < |parts| :: Largest(parts, budget, Share(parts, budget), final, i)
  }

  /** The bytes of the labels, of up to three bytes of each content, and of the
      blank lines between: what the window takes at the very least. */
  function Smallest(parts: seq<Part>): nat
  {
    SmallestPieces(parts) + if parts == [] then 0 else 2 * (|parts| - 1)
  }

  function SmallestPieces(parts: seq<Part>): nat
  {
    var n := |parts| - 1;
    if n < 0 then 0
    else SmallestPieces(parts[..n]) + ByteLen(parts[n].speaker + COLON) + Min(ByteLen(parts[n].content), 3)
  }

  lemma {:induction false} SmallestIsOneTokenEach(parts: seq<Part>)
    ensures Bytes(parts, Equal(|parts|, 1)) == SmallestPieces(parts)
  {
    hide ByteLen, Truncate;
    var n := |parts| - 1;
    if n >= 0 {
      SmallestIsOneTokenEach(parts[..n]);
      assert Equal(n + 1, 1)[..n] == Equal(n, 1);
      OneTokenBytes(parts[n].content);
    }
  }

  lemma {:induction false} OneTokenBytes(text: string)
    ensures ByteLen(Truncate(text, 1)) == Min(ByteLen(text), 3)
  {
    hide ByteLen, Longest;
    EllipsisBytes();
    AsciiByteLen("");
  }

  lemma {:induction false} OneTokenEachFits(parts: seq<Part>, budget: int)
    ensures Fits(parts, Equal(|parts|, 1), budget) <==> Smallest(parts) <= 3 * budget
  {
    hide ByteLen, Render, Bytes, SmallestPieces;
    SmallestIsOneTokenEach(parts);
    RenderBytes(parts, Equal(|parts|, 1));
    AsciiByteLen("");
  }

  /** The equal shares fit exactly if the smallest window does: where they are
      more than a token each, the budget covers the labels anyway. */
  lemma {:induction false} SharesFitExactly(parts: seq<Part>, budget: int)
    requires parts != []
    ensures Fits(parts, Equal(|parts|, Share(parts, budget)), budget) <==> Smallest(parts) <= 3 * budget
  {
    hide Fits, Smallest, Overhead;
    OneTokenEachFits(parts, budget);
    if budget >= Overhead(parts) + |parts| {
      EqualFits(parts, budget);
      FitsMonotone(parts, Equal(|parts|, 1), Equal(|parts|, Share(parts, budget)), budget);
    }
  }

  /** No part is cut to nothing, and the window fits its budget exactly if three
      times the budget covers the labels, the gaps and up to three bytes of each
      content; that is so if the labels leave a token for each part. */
  lemma {:induction false} WindowIsFair(parts: seq<Part>, budget: int, text: string, final: seq<int>)
    requires parts != [] && Window(parts, budget, text, final)
    requires forall k | 0 <= k < |parts| :: parts[k].content != ""
    ensures forall i | 0 <= i < |parts| :: final[i] >= 1 && Truncate(parts[i].content, final[i]) != ""
    ensures Within(text, budget) <==> Smallest(parts) <= 3 * budget
    ensures budget >= Overhead(parts) + |parts| ==> Within(text, budget)
  {
    hide Render, EstimateTextTokens, Largest, Truncate, Overhead, Share, Smallest;
    var share := Share(parts, budget);
    forall i | 0 <= i < |parts| ensures final[i] >= 1 && Truncate(parts[i].content, final[i]) != "" {
      LargestStart(parts, budget, share, final, i);
      TruncateFits(parts[i].content, final[i]);
    }
    WindowFits(parts, budget, share, final);
    SharesFitExactly(parts, budget);
    if budget >= Overhead(parts) + |parts| {
      EqualFits(parts, budget);
    }
  }

  /** A window that exceeds its budget is the smallest one: a token for each
      part. */
  lemma {:induction false} CrowdedWindow(parts: seq<Part>, budget: int, text: string, final: seq<int>)
    requires parts != [] && Window(parts, budget, text, final) && !Within(text, budget)
    ensures ByteLen(text) == Smallest(parts)
  {
    hide Render, EstimateTextTokens, Largest, Fits, Overhead, Bytes, SmallestPieces, ByteLen;
    var n, share := |parts|, Share(parts, budget);
    WindowFits(parts, budget, share, final);
    assert text == Render(parts, final) && !Fits(parts, final, budget) by { FitsIs(parts, final, budget); }
    if budget >= Overhead(parts) + n {
      EqualFits(parts, budget);
    }
    forall i | 0 <= i < n ensures final[i] == 1 {
      AtShare(parts, budget, final, i);
    }
    assert final == Equal(n, 1);
    RenderBytes(parts, final);
    SmallestIsOneTokenEach(parts);
  }

  lemma {:induction false} FitsIs(parts: seq<Part>, allocations: seq<int>, budget: int)
    requires |parts| == |allocations|
    ensures Fits(parts, allocations, budget) <==> Within(Render(parts, allocations), budget)
  {
  }

  /** Where even a token each does not fit, no part gets more. */
  lemma {:induction false} AtShare(parts: seq<Part>, budget: int, final: seq<int>, i: nat)
    requires i < |parts| == |final| && !Fits(parts, Equal(|parts|, 1), budget)
    requires forall k | 0 <= k < |parts| :: Largest(parts, budget, 1, final, k)
    ensures final[i] == 1
  {
    hide Fits, Largest;
    forall k | 0 <= k < |parts| ensures final[k] >= 1 { LargestStart(parts, budget, 1, final, k); }
    LargestStart(parts, budget, 1, final, i);
    if final[i] > 1 {
      FitsMonotone(parts, Equal(|parts|, 1), Stage(1, final, i), budget);
    }
  }

  /** A budget of one token cannot hold even the label: whatever is allocated,
      the window of one user message that says hi exceeds it. */
  lemma {:induction false} WindowOverflows(allocation: int)
    requires allocation >= 1
    ensures !Fits([Part(Label("user"), "hi")], [allocation], 1)
  {
    hide Fits, Smallest, Label;
    var parts := [Part(Label("user"), "hi")];
    LabelIsLonger(parts);
    OneTokenEachFits(parts, 1);
    assert Equal(1, 1) == [1];
    if Fits(parts, [allocation], 1) {
      FitsMonotone(parts, [1], [allocation], 1);
    }
  }

  lemma {:induction false} LabelIsLonger(parts: seq<Part>)
    requires |parts| == 1 && parts[0] == Part(Label("user"), "hi")
    ensures Smallest(parts) > 3
  {
    hide ByteLen;
    ByteLenBounds(Label("user") + COLON);
    ByteLenBounds("hi");
    assert SmallestPieces(parts[..0]) == 0;
  }

  method RenderRecentVerbatimWithinTokenBudget(messages: seq<Option<Message>>, n: int, budget: int)
    returns (text: string, ghost final: seq<int>)
    ensures budget <= 0 || Recent(messages, n) == [] ==> text == ""
    ensures budget > 0 && Recent(messages, n) != [] ==> Window(Recent(messages, n), budget, text, final)
  {
    hide Largest, Render, Parts;
    final := [];
    if |messages| == 0 || n <= 0 || budget <= 0 {
      NoParts();
      return "", [];
    }
    var start := |messages| - n;
    if start < 0 {
      start := 0;
    }
    var parts := CollectParts(messages[start..]);
    if |parts| == 0 {
      return "", [];
    }
    var overhead := MeasureOverhead(parts);
    var share := EqualShare(budget, overhead, parts);
    var allocations := SearchAllocations(parts, budget, share);
    text := Render(parts, allocations);
    final := allocations;
  }

  lemma {:induction false} NoParts()
    ensures Parts([]) == []
  {
  }

  method CollectParts(messages: seq<Option<Message>>) returns (parts: seq<Part>)
    ensures parts == Parts(messages)
  {
    hide Label, TrimSpace;
    parts := [];
    for k := 0 to |messages|
      invariant parts == Parts(messages[..k])
    {
      assert messages[..k + 1][..k] == messages[..k];
      if messages[k].Some? {
        var content := TrimSpace(messages[k].value.content);
        if content != "" {
          parts := parts + [Part(Label(messages[k].value.role), content)];
        }
      }
    }
    assert messages[..|messages|] == messages;
  }

  method MeasureOverhead(parts: seq<Part>) returns (overhead: int)
    requires parts != []
    ensures overhead == Overhead(parts)
  {
    hide EstimateTextTokens;
    overhead := 0;
    for k := 0 to |parts|
      invariant overhead == LabelTokens(parts[..k])
    {
      assert parts[..k + 1][..k] == parts[..k];
      overhead := overhead + EstimateTextTokens(parts[k].speaker + COLON);
    }
    assert parts[..|parts|] == parts;
    var gaps := Gaps(|parts| - 1);
    GapsBytes(|parts| - 1);
    overhead := overhead + EstimateCharTokens(ByteLen(gaps));
  }

  function Gaps(n: nat): string { if n == 0 then "" else Gaps(n - 1) + GAP }

  lemma {:induction false} GapsBytes(n: nat)
    ensures ByteLen(Gaps(n)) == 2 * n
  {
    hide ByteLen;
    if n > 0 {
      GapsBytes(n - 1);
      ByteLenConcat(Gaps(n - 1), GAP);
      AsciiByteLen(GAP);
    } else {
      AsciiByteLen("");
    }
  }

  method EqualShare(budget: int, overhead: int, parts: seq<Part>) returns (share: int)
    requires parts != [] && overhead == Overhead(parts)
    ensures share == Share(parts, budget)
  {
    hide Overhead;
    var content := budget - overhead;
    if content < |parts| {
      content := |parts|;
    }
    share := content / |parts|;
    if share < 1 {
      share := 1;
    }
  }

  // ----- The checkpoint body -----

  const MAX_TOKENS := 8000
  const MAX_CHARS := 24000
  const WINDOW := 10
  const PREAMBLE := "This conversation continues from a compressed checkpoint. "
                  + "Use the summary below as context and continue naturally; "
                  + "do not restate the summary itself."
  const SEPARATOR := "\n\n--- \U{6700}\U{8FD1}\U{7684}\U{539F}\U{59CB}\U{5BF9}\U{8BDD}"
                   + "\U{FF08}\U{4FDD}\U{7559}\U{539F}\U{6587}\U{4EE5}\U{4F9B}\U{53C2}\U{8003}\U{FF09}---\n\n"
  const FALLBACK := "\U{672C}\U{6B21}\U{538B}\U{7F29}\U{672A}\U{80FD}\U{751F}\U{6210}"
                  + "\U{6709}\U{6548}\U{6458}\U{8981}\U{3002}"
                  + "\U{8BF7}\U{6839}\U{636E}\U{6700}\U{8FD1}\U{7684}"
                  + "\U{539F}\U{59CB}\U{5BF9}\U{8BDD}\U{7EE7}\U{7EED}\U{3002}"

  function Summary(extract: string -> string, raw: string): (text: string)
    ensures text != ""
    ensures TrimSpace(extract(TrimSpace(raw))) != "" ==> text == TrimSpace(extract(TrimSpace(raw)))
  {
    var text := TrimSpace(extract(TrimSpace(raw)));
    if text == "" then FALLBACK else text
  }

  /** What the preamble and the separator leave. */
  function Available(): int
  {
    var left := MAX_TOKENS - EstimateTextTokens(PREAMBLE + GAP + SEPARATOR);
    if left < 1 then 1 else left
  }

  lemma {:induction false} FixedTokens()
    ensures Available() == MAX_TOKENS - EstimateTextTokens(PREAMBLE + GAP + SEPARATOR) >= 1
  {
    hide ByteLen;
    ByteLenBounds(PREAMBLE + GAP + SEPARATOR);
  }

  lemma {:induction false} RenderIsNotEmpty(parts: seq<Part>, allocations: seq<int>)
    requires |parts| == |allocations| > 0
    ensures Render(parts, allocations) != ""
  {
    hide Truncate;
    assert |Piece(parts[|parts| - 1], allocations[|parts| - 1])| > 0;
  }

  lemma {:induction false} FourPieces(p: string, s: string, sep: string, r: string)
    ensures EstimateTextTokens(p + s + sep + r) <= EstimateTextTokens(p + sep) + EstimateTextTokens(s)
        + EstimateTextTokens(r)
    ensures EstimateTextTokens(p + s) <= EstimateTextTokens(p + sep) + EstimateTextTokens(s)
    ensures EstimateTextTokens(p + s + sep + r) <= EstimateTextTokens(p + s + sep) + EstimateTextTokens(r)
  {
    hide ByteLen;
    ByteLenConcat(p, s);
    ByteLenConcat(p + s, sep);
    ByteLenConcat(p + s + sep, r);
    ByteLenConcat(p, sep);
  }

  /** A text within the token budget is within the character ceiling. */
  lemma {:induction false} TokensBoundChars(text: string)
    requires Within(text, MAX_TOKENS)
    ensures |text| <= MAX_CHARS
  {
    ByteLenBounds(text);
  }

  /** Before the guards: the summary yields to the window, down to a token. */
  function Draft(summary: string, recent: string): string
  {
    if recent == "" then PREAMBLE + GAP + Truncate(summary, Available())
    else
      var left := Available() - EstimateTextTokens(recent);
      PREAMBLE + GAP + Truncate(summary, if left < 1 then 1 else left) + SEPARATOR + recent
  }

  /** The defensive guard can only fire when the window alone takes all the
      room, which takes labels longer than the budget. */
  lemma {:induction false} DraftFits(summary: string, recent: string)
    requires recent == "" || EstimateTextTokens(recent) < Available()
    ensures Within(Draft(summary, recent), MAX_TOKENS)
  {
    hide Truncate, EstimateTextTokens, Available;
    FixedTokens();
    var left := if recent == "" then Available() else Available() - EstimateTextTokens(recent);
    TruncateFits(summary, left);
    FourPieces(PREAMBLE + GAP, Truncate(summary, left), SEPARATOR, recent);
  }

  /** What is left for a window that does not fit, behind a summary that is
      cut to a token. */
  function AllowedRecent(summary: string): int
  {
    MAX_TOKENS - EstimateTextTokens(PREAMBLE + GAP + Truncate(summary, 1) + SEPARATOR)
  }

  /** Guarded: such a window is cut, the summary stays. */
  function Shortened(summary: string, recent: string): string
  {
    PREAMBLE + GAP + Truncate(summary, 1) + SEPARATOR + Truncate(recent, AllowedRecent(summary))
  }

  /** There is always room for some of the window. */
  lemma {:induction false} AllowedIsPositive(summary: string, recent: string)
    ensures AllowedRecent(summary) > 0
    ensures recent != "" ==> Truncate(recent, AllowedRecent(summary)) != ""
  {
    hide Truncate, EstimateTextTokens, Available;
    FixedTokens();
    RoomForMore();
    TruncateFits(summary, 1);
    FourPieces(PREAMBLE + GAP, Truncate(summary, 1), SEPARATOR, "");
    assert PREAMBLE + GAP + Truncate(summary, 1) + SEPARATOR + "" == PREAMBLE + GAP + Truncate(summary, 1) + SEPARATOR;
    assert EstimateTextTokens("") == 0 by { NoBytes(); }
    TruncateFits(recent, AllowedRecent(summary));
  }

  lemma {:induction false} NoBytes()
    ensures EstimateTextTokens("") == 0
  {
  }

  lemma {:induction false} RoomForMore()
    ensures 2000 <= Available() < MAX_TOKENS
  {
    hide ByteLen;
    ByteLenBounds(PREAMBLE + GAP + SEPARATOR);
  }

  method GuardBody(summary: string, recent: string) returns (body: string)
    ensures Within(body, MAX_TOKENS) && |body| <= MAX_CHARS
    ensures Within(Draft(summary, recent), MAX_TOKENS) ==> body == Draft(summary, recent)
    ensures !Within(Draft(summary, recent), MAX_TOKENS) ==> recent != "" && body == Shortened(summary, recent)
  {
    hide Truncate, EstimateTextTokens, Available;
    var left := if recent == "" then Available() else Available() - EstimateTextTokens(recent);
    FixedTokens();
    var preamble := PREAMBLE + GAP;
    var summaryText := TruncateTextToTokens(summary, if left < 1 then 1 else left);
    body := preamble + summaryText;
    if recent != "" {
      body := body + SEPARATOR + recent;
    }
    assert body == Draft(summary, recent);
    if EstimateTextTokens(body) > MAX_TOKENS {
      var allowedRecent := MAX_TOKENS - EstimateTextTokens(preamble + summaryText + SEPARATOR);
      if allowedRecent > 0 {
        var shorter := TruncateTextToTokens(recent, allowedRecent);
        body := preamble + summaryText + SEPARATOR + shorter;
        TruncateFits(recent, allowedRecent);
        FourPieces(preamble, summaryText, SEPARATOR, shorter);
      } else {
        body := TruncateTextToTokens(preamble + summaryText, MAX_TOKENS);
        TruncateFits(preamble + summaryText, MAX_TOKENS);
      }
    }
    TokensBoundChars(body);
    if |body| > MAX_CHARS {
      body := TruncateTextToTokens(body, MAX_TOKENS);
    }
    AllowedIsPositive(summary, recent);
    if recent == "" || EstimateTextTokens(recent) < Available() {
      DraftFits(summary, recent);
    }
  }

  /** A body with some of the summary and, if there is a window, some of it. */
  ghost predicate Shows(body: string, recent: string, cut: string, shown: string)
  {
    && cut != "" && (shown == "" <==> recent == "")
    && body == PREAMBLE + GAP + cut + if recent == "" then "" else SEPARATOR + shown
  }

  lemma {:induction false} DraftShows(summary: string, recent: string) returns (cut: string)
    requires summary != ""
    ensures Shows(Draft(summary, recent), recent, cut, recent)
  {
    hide Truncate, EstimateTextTokens, Available;
    FixedTokens();
    var left := Available() - EstimateTextTokens(recent);
    cut := Truncate(summary, if recent == "" then Available() else if left < 1 then 1 else left);
    TruncateFits(summary, if recent == "" then Available() else if left < 1 then 1 else left);
    Assoc(PREAMBLE + GAP + cut, SEPARATOR, recent);
    assert PREAMBLE + GAP + cut + "" == PREAMBLE + GAP + cut;
  }

  lemma {:induction false} ShortenedShows(summary: string, recent: string)
    requires summary != "" && recent != ""
    ensures Shows(Shortened(summary, recent), recent, Truncate(summary, 1), Truncate(recent, AllowedRecent(summary)))
  {
    hide Truncate, EstimateTextTokens, Available, AllowedRecent;
    AllowedIsPositive(summary, recent);
    TruncateFits(summary, 1);
    Assoc(PREAMBLE + GAP + Truncate(summary, 1), SEPARATOR, Truncate(recent, AllowedRecent(summary)));
  }

  /** The window leaves room for the summary exactly if its labels, its gaps and
      up to three bytes of each content do. */
  lemma {:induction false} WindowLeavesRoom(parts: seq<Part>, budget: int, text: string, final: seq<int>)
    requires parts != [] && Window(parts, budget, text, final) && budget < Available()
    requires forall k | 0 <= k < |parts| :: parts[k].content != ""
    ensures EstimateTextTokens(text) < Available() <==> Smallest(parts) <= 3 * (Available() - 1)
  {
    hide ByteLen, Available, Window, Smallest, Overhead;
    RoomForMore();
    WindowIsFair(parts, budget, text, final);
    if !Within(text, budget) {
      CrowdedWindow(parts, budget, text, final);
    }
  }

  /** The roles the server writes. */
  predicate Written(m: Option<Message>)
  {
    m.Some? ==> m.value.role in {"user", "assistant", "tool", "system"}
  }

  /** With these roles the labels are short, so that is always so. */
  lemma {:induction false} WrittenRolesLeaveRoom(messages: seq<Option<Message>>)
    requires forall k | 0 <= k < |messages| :: Written(messages[k])
    ensures Smallest(Recent(messages, WINDOW)) <= 3 * (Available() - 1)
  {
    hide Available, SmallestPieces, Parts, Written;
    RoomForMore();
    var start := if |messages| <= WINDOW then 0 else |messages| - WINDOW;
    var recent := messages[start..];
    forall k | 0 <= k < |recent| ensures Written(recent[k]) { assert recent[k] == messages[start + k]; }
    ShortSpeakers(recent);
    SmallPieces(Parts(recent));
  }

  lemma {:induction false} ShortSpeakers(messages: seq<Option<Message>>)
    requires forall k | 0 <= k < |messages| :: Written(messages[k])
    ensures forall k | 0 <= k < |Parts(messages)| :: |Parts(messages)[k].speaker| <= 6
  {
    hide TrimSpace;
    if messages != [] {
      assert Written(messages[|messages| - 1]);
      ShortSpeakers(messages[..|messages| - 1]);
    }
  }

  lemma {:induction false} SmallPieces(parts: seq<Part>)
    requires forall k | 0 <= k < |parts| :: |parts[k].speaker| <= 6
    ensures SmallestPieces(parts) <= 31 * |parts|
  {
    hide ByteLen;
    var n := |parts| - 1;
    if n >= 0 {
      ByteLenBounds(parts[n].speaker + COLON);
      SmallPieces(parts[..n]);
    }
  }

  /** The body never exceeds either ceiling and always shows some of the summary.
      It shows some of the window exactly when the history has one and the
      summary leaves it a token; when both fit together, both are there in full,
      and when they do not, the window keeps what it was given and the summary is
      cut to the rest. Only a window whose labels leave no room is cut as well. */
  method BuildCompactionSummaryBody(extract: string -> string, rawSummary: string, messages: seq<Option<Message>>)
    returns (body: string, ghost recent: string, ghost final: seq<int>, ghost cut: string, ghost shown: string)
    ensures Within(body, MAX_TOKENS) && |body| <= MAX_CHARS
    ensures Shows(body, recent, cut, shown)
    ensures recent != "" <==> Recent(messages, WINDOW) != []
                              && EstimateTextTokens(Summary(extract, rawSummary)) < Available()
    ensures recent != "" ==>
              Window(Recent(messages, WINDOW), Available() - EstimateTextTokens(Summary(extract, rawSummary)),
                     recent, final)
    ensures recent == "" || Smallest(Recent(messages, WINDOW)) <= 3 * (Available() - 1) ==>
              shown == recent && body == Draft(Summary(extract, rawSummary), recent)
    ensures var summary := Summary(extract, rawSummary);
            body == Draft(summary, recent) || body == Shortened(summary, recent)
  {
    hide Truncate, EstimateTextTokens, Draft, Recent, Largest, Share, Summary, Shortened, Shows, Smallest, Available;
    var summaryText := Summary(extract, rawSummary);
    FixedTokens();
    var available := Available();
    var window;
    window, final := RenderRecentVerbatimWithinTokenBudget(messages, WINDOW,
        available - EstimateTextTokens(summaryText));
    recent := window;
    SummaryHasTokens(summaryText);
    if available > EstimateTextTokens(summaryText) && Recent(messages, WINDOW) != [] {
      RenderIsNotEmpty(Recent(messages, WINDOW), final);
      RecentSays(messages, WINDOW);
      WindowLeavesRoom(Recent(messages, WINDOW), available - EstimateTextTokens(summaryText), recent, final);
    }
    if recent == "" || EstimateTextTokens(recent) < Available() {
      DraftFits(summaryText, recent);
    }
    body := GuardBody(summaryText, window);
    cut := DraftShows(summaryText, recent);
    shown := recent;
    if !Within(Draft(summaryText, recent), MAX_TOKENS) {
      cut, shown := Truncate(summaryText, 1), Truncate(recent, AllowedRecent(summaryText));
      ShortenedShows(summaryText, recent);
    }
  }

  lemma {:induction false} SummaryHasTokens(s: string)
    ensures s != "" ==> EstimateTextTokens(s) > 0
  {
    ByteLenBounds(s);
  }

  lemma {:induction false} RecentSays(messages: seq<Option<Message>>, n: int)
    ensures forall k | 0 <= k < |Recent(messages, n)| :: Recent(messages, n)[k].content != ""
  {
    hide Parts;
  }

  /** Summary and window together within the room: nothing of either is cut. */
  lemma {:induction false} NothingIsCut(summary: string, recent: string)
    requires recent != "" && summary != ""
    requires EstimateTextTokens(summary) + EstimateTextTokens(recent) <= Available()
    ensures Draft(summary, recent) == PREAMBLE + GAP + summary + SEPARATOR + recent
  {
    hide Available;
    ByteLenBounds(summary);
  }

  /** A long summary pushes out the whole window, whatever the history shows. */
  lemma {:induction false} LongSummaryLeavesNoWindow(extract: string -> string, raw: string)
    requires |Summary(extract, raw)| >= MAX_CHARS
    ensures EstimateTextTokens(Summary(extract, raw)) >= Available()
  {
    hide ByteLen, Available, Summary;
    ByteLenBounds(Summary(extract, raw));
    FixedTokens();
  }

  /** Such a summary exists, and there are histories whose window it takes. */
  lemma {:induction false} SummaryEvictsTheWindow()
    ensures EstimateTextTokens(Summary(x => x, Letters(MAX_CHARS))) >= Available()
    ensures Recent([Some(Message("user", "hi"))], WINDOW) != []
  {
    hide EstimateTextTokens, Available, Letters;
    LettersStay();
    LongSummaryLeavesNoWindow(x => x, Letters(MAX_CHARS));
    OneMessageShows();
  }

  lemma {:induction false} LettersStay()
    ensures Summary(x => x, Letters(MAX_CHARS)) == Letters(MAX_CHARS)
  {
    var s := Letters(MAX_CHARS);
    assert TrimLeft(s) == s && TrimRight(s) == s;
  }

  lemma {:induction false} OneMessageShows()
    ensures Recent([Some(Message("user", "hi"))], WINDOW) != []
  {
    hide TrimSpace, IsSpace, Label;
    var m := Some(Message("user", "hi"));
    HiIsNotBlank();
    assert [m][0..] == [m] && [m][..0] == [];
    assert |Parts([m])| > 0;
  }

  lemma {:induction false} HiIsNotBlank()
    ensures TrimSpace("hi") != ""
  {
    hide TrimSpace;
    TrimSpaceEmpty("hi");
    assert !IsSpace("hi"[0]);
  }
}
