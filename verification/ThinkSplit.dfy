/** The streaming splitter that routes an inline leading think block of a
    model's text to the thinking channel. Tags are ASCII, so the model is the
    same whether an element of a string is read as a byte or as a rune. */
module ThinkSplit {
  import opened Sequences

  const OPEN := "<think>"
  const CLOSE := "</think>"

  predicate IsBlank(c: char) { c == ' ' || c == '\t' || c == '\r' || c == '\n' }

  function TrimLeft(s: string): (r: string)
    ensures |r| <= |s| && (r != "" ==> !IsBlank(r[0]))
  {
    if s != "" && IsBlank(s[0]) then TrimLeft(s[1..]) else s
  }

  predicate OccursAt(s: string, tag: string, i: int)
  {
    0 <= i <= |s| - |tag| && s[i..i + |tag|] == tag
  }

  /** strings.Index from position i on. */
  function IndexFrom(s: string, tag: string, i: nat): (r: int)
    requires i <= |s|
    ensures -1 <= r <= |s| && (r >= 0 ==> r + |tag| <= |s|)
    ensures r >= 0 ==> i <= r && OccursAt(s, tag, r) && forall j | i <= j < r :: !OccursAt(s, tag, j)
    ensures r < 0 ==> forall j | i <= j :: !OccursAt(s, tag, j)
    decreases |s| - i
  {
    if OccursAt(s, tag, i) then i else if i == |s| then -1 else IndexFrom(s, tag, i + 1)
  }

  /** strings.Index. */
  function Index(s: string, tag: string): (r: int)
    ensures -1 <= r <= |s| && (r >= 0 ==> r + |tag| <= |s|)
    ensures r >= 0 ==> OccursAt(s, tag, r) && forall j | 0 <= j < r :: !OccursAt(s, tag, j)
    ensures r < 0 ==> forall j | 0 <= j :: !OccursAt(s, tag, j)
  {
    IndexFrom(s, tag, 0)
  }

  predicate IsProperPrefix(s: string, full: string)
  {
    |s| < |full| && full[..|s|] == s
  }

  datatype Parts = Parts(content: string, thinking: string)

  /** What a whole text means: if its first non-blank characters are the open
      tag, everything up to the first close tag is thinking and the rest is
      content; otherwise all of it, leading blanks included, is content. */
  function Split(full: string): (p: Parts)
  {
    var t := TrimLeft(full);
    if OPEN <= t then
      var rest := t[|OPEN|..];
      var i := Index(rest, CLOSE);
      if i < 0 then Parts("", rest) else Parts(rest[i + |CLOSE|..], rest[..i])
    else Parts(full, "")
  }

  /** The first k characters of tag are the last k of text. */
  predicate EndsInPrefix(text: string, tag: string, k: nat)
  {
    k < |tag| && k <= |text| && text[|text| - k..] == tag[..k]
  }

  /** k is the length of the longest proper prefix of tag that ends text. */
  ghost predicate IsPartialTag(text: string, tag: string, k: nat)
  {
    EndsInPrefix(text, tag, k) && forall n | n > k :: !EndsInPrefix(text, tag, n)
  }

  method PartialTagSuffix(text: string, tag: string) returns (k: nat)
    requires tag != ""
    ensures k <= |text| && IsPartialTag(text, tag, k)
  {
    var max := |tag| - 1;
    if max > |text| { max := |text|; }
    k := max;
    while k > 0
      invariant k <= max
      invariant forall n | n > k :: !EndsInPrefix(text, tag, n)
    {
      if text[|text| - k..] == tag[..k] {
        return;
      }
      k := k - 1;
    }
  }

  datatype Mode = Unknown | Thinking | Passthrough

  /** The text read so far still leaves open whether it starts with the tag. */
  predicate Undecided(s: string)
  {
    TrimLeft(s) == "" || IsProperPrefix(TrimLeft(s), OPEN)
  }

  /** The rest of the stream can only be content. */
  predicate Settled(s: string)
  {
    var t := TrimLeft(s);
    !Undecided(s) && (OPEN <= t ==> Index(t[|OPEN|..], CLOSE) >= 0)
  }

  /** The splitter's state and everything it has emitted, as a relation to the
      text it has consumed: nothing of it depends on how the text was cut. */
  ghost predicate Consumed(s: string, mode: Mode, pending: string, out: Parts)
  {
    match mode
    case Unknown => Undecided(s) && pending == s && out == Parts("", "")
    case Thinking =>
      var t := TrimLeft(s);
      && OPEN <= t && out.content == ""
      && t[|OPEN|..] == out.thinking + pending
      && Index(t[|OPEN|..], CLOSE) < 0
      && IsPartialTag(t[|OPEN|..], CLOSE, |pending|)
    case Passthrough => Settled(s) && pending == "" && out == Split(s)
  }

  /** The same relation in the middle of a feed, with `work` still to read. */
  ghost predicate InFlight(s: string, mode: Mode, work: string, out: Parts)
  {
    match mode
    case Unknown => work == s && out == Parts("", "")
    case Thinking =>
      var t := TrimLeft(s);
      && OPEN <= t && out.content == ""
      && t[|OPEN|..] == out.thinking + work
      && (forall j | 0 <= j < |out.thinking| :: !OccursAt(t[|OPEN|..], CLOSE, j))
      && forall n | n > |work| :: !EndsInPrefix(t[|OPEN|..], CLOSE, n)
    case Passthrough => Settled(s) && Split(s) == Parts(out.content + work, out.thinking)
  }

  lemma {:induction false} TrimLeftAppend(s: string, d: string)
    ensures TrimLeft(s) != "" ==> TrimLeft(s + d) == TrimLeft(s) + d
    ensures TrimLeft(s) == "" ==> TrimLeft(s + d) == TrimLeft(d)
  {
    if s == "" {
      assert s + d == d;
    } else if IsBlank(s[0]) {
      TrimLeftAppend(s[1..], d);
      assert (s + d)[1..] == s[1..] + d;
    }
  }

  /** An occurrence inside a prefix is an occurrence of the whole, and back. */
  lemma {:induction false} OccursAtAppend(r: string, d: string, tag: string, j: int)
    requires j + |tag| <= |r|
    ensures OccursAt(r + d, tag, j) <==> OccursAt(r, tag, j)
  {
    if j >= 0 {
      assert (r + d)[j..j + |tag|] == r[j..j + |tag|];
    }
  }

  /** More text does not move the first close tag. */
  lemma {:induction false} IndexAppend(r: string, d: string, tag: string)
    requires Index(r, tag) >= 0
    ensures Index(r + d, tag) == Index(r, tag)
  {
    var i := Index(r, tag);
    forall j | 0 <= j <= i ensures OccursAt(r + d, tag, j) <==> OccursAt(r, tag, j) {
      OccursAtAppend(r, d, tag, j);
    }
  }

  /** Text that neither is nor can become an open tag stays that way. */
  lemma {:induction false} NotOpenAppend(t: string, d: string)
    requires t != "" && !IsProperPrefix(t, OPEN) && !(OPEN <= t)
    ensures !IsProperPrefix(t + d, OPEN) && !(OPEN <= t + d)
  {
    if |t| < |OPEN| {
      assert t[..] != OPEN[..|t|];
      assert (t + d)[..|t|] == t;
    } else {
      assert (t + d)[..|OPEN|] == t[..|OPEN|];
    }
  }

  /** Once settled, more text is content and nothing else changes. */
  lemma {:induction false} SettledAppend(s: string, d: string)
    requires Settled(s)
    ensures Settled(s + d)
    ensures Split(s + d) == Parts(Split(s).content + d, Split(s).thinking)
  {
    TrimLeftAppend(s, d);
    var t := TrimLeft(s);
    assert TrimLeft(s + d) == t + d;
    if OPEN <= t {
      var rest := t[|OPEN|..];
      assert (t + d)[|OPEN|..] == rest + d;
      IndexAppend(rest, d, CLOSE);
      var i := Index(rest, CLOSE);
      assert (rest + d)[i + |CLOSE|..] == rest[i + |CLOSE|..] + d;
      assert (rest + d)[..i] == rest[..i];
    } else {
      NotOpenAppend(t, d);
    }
  }

  /** A tag that starts in r and ends in d leaves a partial tag at r's end. */
  lemma {:induction false} OccursOverEnd(r: string, d: string, tag: string, j: int)
    requires 0 <= j < |r| < j + |tag|
    ensures OccursAt(r + d, tag, j) ==> r[j..] == tag[..|r| - j]
  {
    if OccursAt(r + d, tag, j) {
      assert (r + d)[j..j + |tag|][..|r| - j] == r[j..];
    }
  }

  /** No close tag can start in text already given out as thinking: the part
      of such a tag before `d` would be a longer partial tag than the one
      that was held back. */
  lemma {:induction false} HeldBackIsEnough(r: string, d: string, k: nat, j: int)
    requires Index(r, CLOSE) < 0 && IsPartialTag(r, CLOSE, k)
    requires 0 <= j < |r| - k
    ensures !OccursAt(r + d, CLOSE, j)
  {
    if j + |CLOSE| <= |r| {
      OccursAtAppend(r, d, CLOSE, j);
    } else {
      assert !EndsInPrefix(r, CLOSE, |r| - j);
      OccursOverEnd(r, d, CLOSE, j);
    }
  }

  /** The longest partial tag of the unread part is that of the whole, when no
      longer one ends the whole. */
  lemma {:induction false} PartialOfSuffix(read: string, work: string, k: nat)
    requires IsPartialTag(work, CLOSE, k)
    requires forall n | n > |work| :: !EndsInPrefix(read + work, CLOSE, n)
    ensures IsPartialTag(read + work, CLOSE, k)
  {
    forall n: nat ensures n <= |work| ==> (EndsInPrefix(read + work, CLOSE, n) <==> EndsInPrefix(work, CLOSE, n)) {
      if n <= |work| {
        assert (read + work)[|read + work| - n..] == work[|work| - n..];
      }
    }
  }

  /** Positions shift by the length of what is put in front. */
  lemma {:induction false} OccursShift(a: string, b: string, tag: string, i: int)
    requires 0 <= i
    ensures OccursAt(a + b, tag, |a| + i) <==> OccursAt(b, tag, i)
  {
    if i + |tag| <= |b| {
      assert (a + b)[|a| + i..|a| + i + |tag|] == b[i..i + |tag|];
    }
  }

  /** If nothing starts in a, the first tag of a + b is the first tag of b. */
  lemma {:induction false} IndexShift(a: string, b: string, tag: string)
    requires forall j | 0 <= j < |a| :: !OccursAt(a + b, tag, j)
    ensures Index(a + b, tag) == if Index(b, tag) < 0 then -1 else |a| + Index(b, tag)
  {
    var i, k := Index(b, tag), Index(a + b, tag);
    if i >= 0 {
      OccursShift(a, b, tag, i);
      forall j | |a| <= j < |a| + i ensures !OccursAt(a + b, tag, j) {
        OccursShift(a, b, tag, j - |a|);
      }
    } else if k >= |a| {
      OccursShift(a, b, tag, k - |a|);
    }
  }

  /** A tag prefix that ends r + d and starts in r ends r when cut there. */
  lemma {:induction false} EndsInPrefixCut(r: string, d: string, tag: string, n: nat)
    requires n >= |d|
    ensures EndsInPrefix(r + d, tag, n) ==> EndsInPrefix(r, tag, n - |d|)
  {
    if EndsInPrefix(r + d, tag, n) {
      assert (r + d)[|r + d| - n..][..n - |d|] == r[|r| - (n - |d|)..];
    }
  }

  lemma {:induction false} IndexCut(s: string, tag: string)
    requires Index(s, tag) >= 0
    ensures var i := Index(s, tag); i + |tag| <= |s| && s == s[..i] + tag + s[i + |tag|..]
  {
  }

  /** Nothing before the first occurrence contains one. */
  lemma {:induction false} IndexBefore(s: string, tag: string)
    requires tag != "" && Index(s, tag) >= 0
    ensures Index(s[..Index(s, tag)], tag) < 0
  {
    var i := Index(s, tag);
    forall j | 0 <= j ensures !OccursAt(s[..i], tag, j) {
      if j + |tag| <= i {
        assert s[..i][j..j + |tag|] == s[j..j + |tag|];
        assert j < i ==> !OccursAt(s, tag, j);
      }
    }
  }

  /** What is held back keeps the emitted thinking free of tags and leaves no
      longer partial tag, whatever comes next. */
  lemma {:induction false} ResumeThinking(r: string, emitted: string, pending: string, delta: string)
    requires r == emitted + pending && Index(r, CLOSE) < 0 && IsPartialTag(r, CLOSE, |pending|)
    ensures r + delta == emitted + (pending + delta)
    ensures forall j | 0 <= j < |emitted| :: !OccursAt(r + delta, CLOSE, j)
    ensures forall n | n > |pending + delta| :: !EndsInPrefix(r + delta, CLOSE, n)
  {
    Assoc(emitted, pending, delta);
    forall j | 0 <= j < |emitted| ensures !OccursAt(r + delta, CLOSE, j) {
      HeldBackIsEnough(r, delta, |pending|, j);
    }
    forall n | n > |pending + delta| ensures !EndsInPrefix(r + delta, CLOSE, n) {
      EndsInPrefixCut(r, delta, CLOSE, n);
    }
  }

  /** Reading on from a settled or open relation re-establishes the loop one. */
  lemma {:induction false} Resume(s: string, delta: string, mode: Mode, pending: string, out: Parts)
    requires Consumed(s, mode, pending, out)
    ensures InFlight(s + delta, mode, pending + delta, out)
  {
    match mode
    case Unknown =>
    case Thinking =>
      TrimLeftAppend(s, delta);
      var r := TrimLeft(s)[|OPEN|..];
      assert TrimLeft(s + delta)[|OPEN|..] == r + delta;
      assert OPEN <= TrimLeft(s) + delta;
      ResumeThinking(r, out.thinking, pending, delta);
    case Passthrough =>
      SettledAppend(s, delta);
      assert "" + delta == delta;
  }

  /** The open tag was found: the thinking part starts after it. */
  lemma {:induction false} OpenFound(s: string)
    requires OPEN <= TrimLeft(s)
    ensures InFlight(s, Thinking, TrimLeft(s)[|OPEN|..], Parts("", ""))
  {
    var r := TrimLeft(s)[|OPEN|..];
    assert r == "" + r;
  }

  /** The text cannot open with the tag: all of it is content. */
  lemma {:induction false} NotOpen(s: string)
    requires !Undecided(s) && !(OPEN <= TrimLeft(s))
    ensures InFlight(s, Passthrough, s, Parts("", ""))
  {
    assert "" + s == s;
  }

  /** The close tag was found: what is before it is thinking, the rest content. */
  lemma {:induction false} CloseFound(s: string, work: string, out: Parts)
    requires InFlight(s, Thinking, work, out) && Index(work, CLOSE) >= 0
    ensures var i := Index(work, CLOSE);
            InFlight(s, Passthrough, work[i + |CLOSE|..], Parts(out.content, out.thinking + work[..i]))
  {
    var r := TrimLeft(s)[|OPEN|..];
    var i := Index(work, CLOSE);
    IndexShift(out.thinking, work, CLOSE);
    assert r[..|out.thinking| + i] == out.thinking + work[..i];
    assert r[|out.thinking| + i + |CLOSE|..] == work[i + |CLOSE|..];
  }

  /** No close tag: all but a partial one can be given out. */
  lemma {:induction false} CloseNotFound(s: string, work: string, out: Parts, keep: nat)
    requires InFlight(s, Thinking, work, out) && Index(work, CLOSE) < 0
    requires IsPartialTag(work, CLOSE, keep)
    ensures Consumed(s, Thinking, work[|work| - keep..],
                     Parts(out.content, out.thinking + work[..|work| - keep]))
  {
    IndexShift(out.thinking, work, CLOSE);
    PartialOfSuffix(out.thinking, work, keep);
    assert out.thinking + work == out.thinking + work[..|work| - keep] + work[|work| - keep..];
  }

  /** Nothing left to read: the loop relation is the resting one. */
  lemma {:induction false} Rest(s: string, mode: Mode, out: Parts)
    requires InFlight(s, mode, "", out)
    ensures Consumed(s, mode, "", out)
  {
    match mode
    case Unknown =>
    case Thinking =>
      var r := TrimLeft(s)[|OPEN|..];
      assert r == out.thinking;
      assert forall n | n > 0 :: !EndsInPrefix(r, CLOSE, n);
    case Passthrough =>
      assert out.content + "" == out.content;
  }

  /** What a stream has given out of a text before its end: nothing while the
      text may still open with the tag, all but a partial close tag while a
      block is open, and the whole split otherwise. */
  ghost predicate Streamed(full: string, out: Parts)
  {
    var t := TrimLeft(full);
    if Undecided(full) then out == Parts("", "")
    else if OPEN <= t && Index(t[|OPEN|..], CLOSE) < 0 then
      out.content == "" && out.thinking <= t[|OPEN|..]
          && IsPartialTag(t[|OPEN|..], CLOSE, |t| - |OPEN| - |out.thinking|)
    else out == Split(full)
  }

  lemma {:induction false} ConsumedIsStreamed(s: string, mode: Mode, pending: string, out: Parts)
    requires Consumed(s, mode, pending, out)
    ensures Streamed(s, out)
    ensures out.content <= Split(s).content && out.thinking <= Split(s).thinking
  {
    hide Index, IsPartialTag;
    var t := TrimLeft(s);
    assert mode == Thinking ==> t != "" && !IsProperPrefix(t, OPEN);
  }

  class ThinkSplitter {
    var mode: Mode
    var pending: string
    ghost var consumed: string
    ghost var emitted: Parts

    ghost predicate Valid()
      reads this
    {
      Consumed(consumed, mode, pending, emitted)
    }

    constructor ()
      ensures Valid() && consumed == "" && emitted == Parts("", "")
    {
      mode, pending := Unknown, "";
      consumed, emitted := "", Parts("", "");
    }

    method Feed(delta: string) returns (content: string, thinking: string)
      requires Valid()
      modifies this
      ensures Valid() && consumed == old(consumed) + delta
      ensures emitted == Parts(old(emitted.content) + content, old(emitted.thinking) + thinking)
    {
      hide Split, Settled, IsPartialTag, EndsInPrefix, OccursAt, IndexFrom;
      var work := pending + delta;
      ghost var total := consumed + delta;
      ghost var out := emitted;
      Resume(consumed, delta, mode, pending, emitted);
      pending := "";
      content, thinking := "", "";
      if |work| == 0 {
        Rest(total, mode, out);
      }
      while |work| > 0
        invariant out == Parts(emitted.content + content, emitted.thinking + thinking)
        invariant emitted == old(emitted) && consumed == old(consumed)
        invariant work == "" ==> Consumed(total, mode, pending, out)
        invariant work != "" ==> pending == "" && InFlight(total, mode, work, out)
        decreases |work|, if mode == Unknown then 1 else 0
      {
        if mode == Unknown {
          var trimmed := TrimLeft(work);
          if trimmed == "" || IsProperPrefix(trimmed, OPEN) {
            pending, work := work, "";
          } else if OPEN <= trimmed {
            work := trimmed[|OPEN|..];
            mode := Thinking;
            OpenFound(total);
            if work == "" { Rest(total, mode, out); }
          } else {
            mode := Passthrough;
            NotOpen(total);
          }
        } else if mode == Thinking {
          var idx := Index(work, CLOSE);
          if idx >= 0 {
            CloseFound(total, work, out);
            Assoc(emitted.thinking, thinking, work[..idx]);
            out := Parts(out.content, out.thinking + work[..idx]);
            thinking, work := thinking + work[..idx], work[idx + |CLOSE|..];
            mode := Passthrough;
            if work == "" { Rest(total, mode, out); }
          } else {
            var keep := PartialTagSuffix(work, CLOSE);
            CloseNotFound(total, work, out, keep);
            Assoc(emitted.thinking, thinking, work[..|work| - keep]);
            out := Parts(out.content, out.thinking + work[..|work| - keep]);
            thinking := thinking + work[..|work| - keep];
            pending, work := work[|work| - keep..], "";
          }
        } else {
          Assoc(emitted.content, content, work);
          out := Parts(out.content + work, out.thinking);
          content, work := content + work, "";
        }
      }
      consumed := total;
      emitted := out;
    }

    /** Ends the stream: the text read so far has then been split exactly. */
    method Flush() returns (content: string, thinking: string)
      requires Valid()
      modifies this
      ensures Parts(old(emitted.content) + content, old(emitted.thinking) + thinking) == Split(old(consumed))
      ensures pending == "" && mode == old(mode)
    {
      content, thinking := "", "";
      if pending == "" {
        return;
      }
      var rem := pending;
      pending := "";
      if mode == Thinking {
        thinking := rem;
      } else {
        content := rem;
      }
    }
  }

  function Concat(chunks: seq<string>): string
  {
    if chunks == [] then "" else Concat(chunks[..|chunks| - 1]) + chunks[|chunks| - 1]
  }

  /** Feeds a text chunk by chunk and flushes: whatever the cut, the emitted
      parts are those of the whole text. */
  method SplitChunks(chunks: seq<string>) returns (content: string, thinking: string)
    ensures Parts(content, thinking) == Split(Concat(chunks))
  {
    var s := new ThinkSplitter();
    content, thinking := "", "";
    for i := 0 to |chunks|
      invariant s.Valid() && s.consumed == Concat(chunks[..i]) && s.emitted == Parts(content, thinking)
    {
      var c, t := s.Feed(chunks[i]);
      content, thinking := content + c, thinking + t;
      assert chunks[..i + 1][..i] == chunks[..i];
    }
    assert chunks[..|chunks|] == chunks;
    var c, t := s.Flush();
    content, thinking := content + c, thinking + t;
  }

  method SplitThinkContent(full: string) returns (content: string, thinking: string)
    ensures Parts(content, thinking) == Split(full)
  {
    var s := new ThinkSplitter();
    var c, t := s.Feed(full);
    var cf, tf := s.Flush();
    assert "" + full == full && "" + c == c && "" + t == t;
    content, thinking := c + cf, t + tf;
  }

  predicate AllBlank(ws: string) { forall i | 0 <= i < |ws| :: IsBlank(ws[i]) }

  lemma {:induction false} TrimLeftBlanks(ws: string, rest: string)
    requires AllBlank(ws) && rest != "" && !IsBlank(rest[0])
    ensures TrimLeft(ws + rest) == rest
  {
    if ws == "" {
      assert ws + rest == rest;
    } else {
      TrimLeftBlanks(ws[1..], rest);
      assert (ws + rest)[1..] == ws[1..] + rest;
    }
  }

  /** Two close tags cannot overlap: its first character occurs once in it. */
  lemma {:induction false} CloseEndsThinking(t: string, c: string)
    requires Index(t, CLOSE) < 0
    ensures Index(t + (CLOSE + c), CLOSE) == |t|
  {
    var r := t + (CLOSE + c);
    OccursShift(t, CLOSE + c, CLOSE, 0);
    assert OccursAt(CLOSE + c, CLOSE, 0);
    forall j | 0 <= j < |t| ensures !OccursAt(r, CLOSE, j) {
      if j + |CLOSE| <= |t| {
        OccursAtAppend(t, CLOSE + c, CLOSE, j);
      } else {
        var n := |t| - j;
        assert r[j..j + |CLOSE|][n] == r[|t|] == '<';
        assert CLOSE[n] != '<';
      }
    }
  }

  /** An opening block is recovered exactly: leading blanks, the tag, thinking
      without a close tag, the close tag and content split into the two. */
  lemma {:induction false} SplitBlock(ws: string, t: string, c: string)
    requires AllBlank(ws) && Index(t, CLOSE) < 0
    ensures Split(ws + (OPEN + (t + (CLOSE + c)))) == Parts(c, t)
  {
    hide OccursAt, IndexFrom, Index, TrimLeft;
    var rest := t + (CLOSE + c);
    TrimLeftBlanks(ws, OPEN + rest);
    assert (OPEN + rest)[|OPEN|..] == rest;
    CloseEndsThinking(t, c);
    assert rest[..|t|] == t;
    assert rest[|t| + |CLOSE|..] == c;
  }

  /** Text that does not open with the tag, and text whose block was never
      closed, lose nothing. */
  lemma {:induction false} SplitOther(full: string)
    ensures !(OPEN <= TrimLeft(full)) ==> Split(full) == Parts(full, "")
    ensures OPEN <= TrimLeft(full) && Index(TrimLeft(full)[|OPEN|..], CLOSE) < 0 ==>
              TrimLeft(full) == OPEN + Split(full).thinking && Split(full).content == ""
    ensures OPEN <= TrimLeft(full) && Index(TrimLeft(full)[|OPEN|..], CLOSE) >= 0 ==>
              TrimLeft(full) == OPEN + Split(full).thinking + CLOSE + Split(full).content
              && Index(Split(full).thinking, CLOSE) < 0
  {
    hide OccursAt, TrimLeft, IndexFrom;
    var t := TrimLeft(full);
    if OPEN <= t {
      var rest := t[|OPEN|..];
      var i := Index(rest, CLOSE);
      assert t == OPEN + rest;
      if i >= 0 {
        IndexCut(rest, CLOSE);
        IndexBefore(rest, CLOSE);
      }
    }
  }
}
