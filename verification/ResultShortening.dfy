/** Cutting a tool result down to its grant so that it stays valid JSON and a
    reader can continue where it was cut. */
module ResultShortening {
  import opened Text
  import opened Json
  import opened ToolBudget

  // ----- The notices -----

  /** A notice about a tool: Go writes the keys in order. */
  function Notice(toolName: string, reason: string, message: string): string
  {
    NoticeHead(reason, message) + JsonString(toolName) + "}"
  }

  function NoticeHead(reason: string, message: string): string
  {
    (BLOCKED + message) + ((MIDDLE + reason) + LAST)
  }

  const BLOCKED := "{\"blocked\":true,\"message\":\""
  const MIDDLE := "\",\"ok\":false,\"reason\":\""
  const LAST := "\",\"tool\":"
  const TOO_LARGE := "tool_result_too_large"
  const EXHAUSTED := "tool_context_" + "budget_exhausted"
  const UNFIT_A := "The tool result could not fit "
  const UNFIT_B := "safely inside the remaining "
  const UNFIT_C := "context budget."
  const OVER_A := "The tool result exceeded the "
  const OVER_B := "remaining context budget."
  const SPENT := "The remaining tool context " + "budget is exhausted."

  /** Sent when a result did not fit its grant even after shortening. */
  function TooLargeNotice(toolName: string): string
  {
    Notice(toolName, TOO_LARGE, UNFIT_A + (UNFIT_B + UNFIT_C))
  }

  /** Sent by the shortening itself when not even an empty excerpt fits. */
  function OverBudgetNotice(toolName: string): string
  {
    Notice(toolName, TOO_LARGE, OVER_A + OVER_B)
  }

  /** Sent by the shortening when the limit is below one grant. */
  function ExhaustedNotice(toolName: string): string
  {
    Notice(toolName, EXHAUSTED, SPENT)
  }

  lemma {:induction false} FrameBytes()
    ensures ByteLen(BLOCKED) == 27 && ByteLen(MIDDLE) == 23 && ByteLen(LAST) == 9
  {
    hide ByteLen;
    AsciiByteLen(BLOCKED);
    AsciiByteLen(MIDDLE);
    AsciiByteLen(LAST);
  }

  lemma {:induction false} NoticeBytes(toolName: string, reason: string, message: string)
    ensures ByteLen(Notice(toolName, reason, message))
         == 62 + ByteLen(message) + ByteLen(reason) + ByteLen(JsonRunes(toolName))
  {
    hide ByteLen, JsonString;
    FrameBytes();
    ByteLenConcat(BLOCKED, message);
    ByteLenConcat(MIDDLE, reason);
    ByteLenConcat(MIDDLE + reason, LAST);
    ByteLenConcat(BLOCKED + message, (MIDDLE + reason) + LAST);
    JsonStringBytes(toolName);
    AsciiByteLen("}");
    ByteLenConcat(NoticeHead(reason, message), JsonString(toolName));
    ByteLenConcat(NoticeHead(reason, message) + JsonString(toolName), "}");
  }

  lemma {:induction false} UnfitBytes()
    ensures ByteLen(UNFIT_A + (UNFIT_B + UNFIT_C)) == 73
  {
    hide ByteLen;
    AsciiByteLen(UNFIT_A);
    AsciiByteLen(UNFIT_B);
    AsciiByteLen(UNFIT_C);
    ByteLenConcat(UNFIT_B, UNFIT_C);
    ByteLenConcat(UNFIT_A, UNFIT_B + UNFIT_C);
  }

  lemma {:induction false} OverBytes()
    ensures ByteLen(OVER_A + OVER_B) == 54 && ByteLen(TOO_LARGE) == 21
  {
    hide ByteLen;
    AsciiByteLen(OVER_A);
    AsciiByteLen(OVER_B);
    AsciiByteLen(TOO_LARGE);
    ByteLenConcat(OVER_A, OVER_B);
  }

  /** The two notices that can settle a grant, in bytes: the shortening's own is
      nineteen bytes shorter. */
  lemma {:induction false} SettlingNoticeBytes(toolName: string)
    ensures ByteLen(TooLargeNotice(toolName)) == 156 + ByteLen(JsonRunes(toolName))
    ensures ByteLen(OverBudgetNotice(toolName)) == 137 + ByteLen(JsonRunes(toolName))
  {
    hide ByteLen, Notice, JsonRunes;
    UnfitBytes();
    OverBytes();
    NoticeBytes(toolName, TOO_LARGE, UNFIT_A + (UNFIT_B + UNFIT_C));
    NoticeBytes(toolName, TOO_LARGE, OVER_A + OVER_B);
  }

  /** A decoded result: its content, its start offset if it is a page of a
      longer text, and the encoded text of all other fields around them. */
  datatype Page = Page(before: string, content: string, between: string, start: Option<int>, after: string)

  /** A page's next offset is its start plus what is kept of its content. */
  function NextOffset(p: Page, k: nat): string
  {
    if p.start.Some? then Decimal(p.start.value + k) else ""
  }

  /** The page with its first k characters; the reader continues after them. */
  function EncodePage(p: Page, k: nat): string
    requires k <= |p.content|
  {
    p.before + JsonString(p.content[..k]) + p.between + NextOffset(p, k) + p.after
  }

  function PageBytes(p: Page, k: nat): nat
    requires k <= |p.content|
  {
    ByteLen(p.before) + ByteLen(JsonRunes(p.content[..k])) + 2 + ByteLen(p.between) + |NextOffset(p, k)|
        + ByteLen(p.after)
  }

  lemma {:induction false} OffsetBytes(p: Page, k: nat)
    ensures ByteLen(NextOffset(p, k)) == |NextOffset(p, k)|
    ensures |NextOffset(p, k)| <= |NextOffset(p, k + 1)| + 1
  {
    hide ByteLen, Decimal;
    if p.start.Some? {
      DecimalAscii(p.start.value + k);
      DecimalGrows(p.start.value + k);
    } else {
      AsciiByteLen("");
    }
  }

  lemma {:induction false} PageBytesExact(p: Page, k: nat)
    requires k <= |p.content|
    ensures ByteLen(EncodePage(p, k)) == PageBytes(p, k)
  {
    hide ByteLen, JsonString, Decimal, JsonRunes;
    var c, d := JsonString(p.content[..k]), NextOffset(p, k);
    JsonStringBytes(p.content[..k]);
    OffsetBytes(p, k);
    ByteLenConcat(p.before, c);
    ByteLenConcat(p.before + c, p.between);
    ByteLenConcat(p.before + c + p.between, d);
    ByteLenConcat(p.before + c + p.between + d, p.after);
  }

  /** More content never encodes smaller, even when the offset loses a digit. */
  lemma {:induction false} PageBytesMonotone(p: Page, i: nat, j: nat)
    requires i <= j <= |p.content|
    ensures PageBytes(p, i) <= PageBytes(p, j)
  {
    hide ByteLen, NextOffset, JsonRunes;
    if i < j {
      PageBytesMonotone(p, i, j - 1);
      JsonRunesGrow(p.content, j - 1);
      OffsetBytes(p, j - 1);
    }
  }

  predicate PageFits(p: Page, k: nat, limit: int)
    requires k <= |p.content|
  {
    EstimateTextTokens(EncodePage(p, k)) <= limit
  }

  /** The most of the first n characters that fits, if any. */
  function CutAt(p: Page, n: nat, limit: int): (k: nat)
    requires n <= |p.content|
    ensures k <= n
  {
    if n == 0 || PageFits(p, n, limit) then n else CutAt(p, n - 1, limit)
  }

  lemma {:induction false} CutAtIsLongest(p: Page, n: nat, limit: int)
    requires n <= |p.content|
    ensures var k := CutAt(p, n, limit);
            (k > 0 ==> PageFits(p, k, limit)) && forall j | k < j <= n :: !PageFits(p, j, limit)
  {
    hide PageFits;
    if n > 0 && !PageFits(p, n, limit) {
      CutAtIsLongest(p, n - 1, limit);
    }
  }

  /** The page cut to the longest prefix of its content that fits; None exactly
      if not even the page without content does. */
  function CutPage(p: Page, limit: int): (r: Option<string>)
  {
    if PageFits(p, 0, limit) then Some(EncodePage(p, CutAt(p, |p.content|, limit))) else None
  }

  lemma {:induction false} CutFits(p: Page, limit: int)
    ensures CutPage(p, limit).Some? ==> EstimateTextTokens(CutPage(p, limit).value) <= limit
  {
    hide EstimateTextTokens, EncodePage, CutAt;
    CutAtIsLongest(p, |p.content|, limit);
    assert PageFits(p, 0, limit) ==> PageFits(p, CutAt(p, |p.content|, limit), limit);
  }

  lemma {:induction false} CutIsUnique(p: Page, k: nat, limit: int)
    requires k <= |p.content| && PageFits(p, k, limit) && forall j | k < j <= |p.content| :: !PageFits(p, j, limit)
    requires PageFits(p, 0, limit)
    ensures CutPage(p, limit) == Some(EncodePage(p, k))
  {
    hide PageFits, EncodePage, CutAt;
    CutAtIsLongest(p, |p.content|, limit);
  }

  lemma {:induction false} PageFitsDownward(p: Page, i: nat, j: nat, limit: int)
    requires i <= j <= |p.content| && PageFits(p, j, limit)
    ensures PageFits(p, i, limit)
  {
    hide ByteLen, PageBytes, EncodePage;
    PageBytesExact(p, i);
    PageBytesExact(p, j);
    PageBytesMonotone(p, i, j);
  }

  /** The page is cut to the longest prefix of its content that fits, and its
      offset points right behind that prefix; nothing is returned exactly when
      not even the page without content fits. */
  method TruncatePagedToolResult(p: Page, limit: int) returns (best: Option<string>, ghost kept: nat)
    ensures best == CutPage(p, limit) && (best.Some? <==> PageFits(p, 0, limit))
    ensures best.Some? ==> kept <= |p.content| && best.value == EncodePage(p, kept) && PageFits(p, kept, limit)
    ensures best.Some? ==> forall k | kept < k <= |p.content| :: !PageFits(p, k, limit)
  {
    hide PageFits, EncodePage, CutAt;
    best, kept := None, 0;
    var low, high := 0, |p.content|;
    while low <= high
      invariant 0 <= low <= high + 1 <= |p.content| + 1
      invariant best.Some? <==> low > 0
      invariant best.Some? ==> kept == low - 1 && best.value == EncodePage(p, kept) && PageFits(p, kept, limit)
      invariant forall k | high < k <= |p.content| :: !PageFits(p, k, limit)
      decreases high - low + 1
    {
      var mid := low + (high - low) / 2;
      var data := EncodePage(p, mid);
      if EstimateTextTokens(data) <= limit {
        assert PageFits(p, mid, limit) by { FitsByDefinition(p, mid, limit); }
        best, kept, low := Some(data), mid, mid + 1;
      } else {
        assert !PageFits(p, mid, limit) by { FitsByDefinition(p, mid, limit); }
        forall k | mid <= k <= |p.content| ensures !PageFits(p, k, limit) {
          if PageFits(p, k, limit) { PageFitsDownward(p, mid, k, limit); }
        }
        high := mid - 1;
      }
    }
    if best.Some? {
      PageFitsDownward(p, 0, kept, limit);
      CutIsUnique(p, kept, limit);
    } else {
      assert !PageFits(p, 0, limit);
    }
  }

  lemma {:induction false} FitsByDefinition(p: Page, k: nat, limit: int)
    requires k <= |p.content|
    ensures PageFits(p, k, limit) <==> EstimateTextTokens(EncodePage(p, k)) <= limit
  {
  }

  const EXCERPT_NOTE := "The tool result exceeded the context budget. Only a bounded excerpt is available; "
                     + "do not claim omitted content was read."

  /** The excerpt of a result that is no page, before it is cut: the trimmed
      text, and what else is said about it. */
  function Excerpt(toolName: string, result: string, ok: bool): Page
  {
    Page("{\"content\":", TrimSpace(result),
         ",\"message\":\"" + EXCERPT_NOTE + "\",\"ok\":" + (if ok then "true" else "false")
         + ",\"original_context_tokens\":" + Decimal(EstimateTextTokens(result))
         + ",\"tool\":" + JsonString(toolName) + ",\"truncated\":true}",
         None, "")
  }

  /** The longest excerpt that fits, or the notice in its place. */
  function Excerpted(toolName: string, result: string, ok: bool, limit: int): string
  {
    var cut := CutPage(Excerpt(toolName, result, ok), limit);
    if limit < MIN_GRANT_TOKENS then ExhaustedNotice(toolName)
    else if cut.Some? then cut.value
    else OverBudgetNotice(toolName)
  }

  /** The longest prefix of the trimmed result whose excerpt fits, or a notice
      when the limit is below one grant or not even the empty excerpt fits. */
  method TruncateToolResultForContext(toolName: string, result: string, ok: bool, limit: int)
    returns (best: string, ghost kept: nat)
    ensures best == Excerpted(toolName, result, ok, limit)
    ensures limit >= MIN_GRANT_TOKENS && PageFits(Excerpt(toolName, result, ok), 0, limit) ==>
              && kept <= |TrimSpace(result)| && best == EncodePage(Excerpt(toolName, result, ok), kept)
              && EstimateTextTokens(best) <= limit
              && forall k | kept < k <= |TrimSpace(result)| :: !PageFits(Excerpt(toolName, result, ok), k, limit)
  {
    hide PageFits, EncodePage, CutAt, TrimSpace, Decimal;
    kept := 0;
    if limit < MIN_GRANT_TOKENS {
      return ExhaustedNotice(toolName), 0;
    }
    var p := Excerpt(toolName, result, ok);
    FitsByDefinition(p, 0, limit);
    if EstimateTextTokens(EncodePage(p, 0)) > limit {
      return OverBudgetNotice(toolName), 0;
    }
    best, kept := SearchExcerpt(p, limit);
  }

  method SearchExcerpt(p: Page, limit: int) returns (best: string, ghost kept: nat)
    requires PageFits(p, 0, limit)
    ensures kept <= |p.content| && best == EncodePage(p, kept) && EstimateTextTokens(best) <= limit
    ensures CutPage(p, limit) == Some(best)
    ensures forall k | kept < k <= |p.content| :: !PageFits(p, k, limit)
  {
    hide PageFits, EncodePage, CutAt;
    var low, high := 0, |p.content|;
    best, kept := EncodePage(p, 0), 0;
    while low <= high
      invariant 0 <= low <= high + 1 <= |p.content| + 1
      invariant kept == (if low == 0 then 0 else low - 1) && best == EncodePage(p, kept) && PageFits(p, kept, limit)
      invariant forall k | high < k <= |p.content| :: !PageFits(p, k, limit)
      decreases high - low + 1
    {
      var mid := low + (high - low) / 2;
      var candidate := EncodePage(p, mid);
      FitsByDefinition(p, mid, limit);
      if EstimateTextTokens(candidate) <= limit {
        best, kept, low := candidate, mid, mid + 1;
      } else {
        forall k | mid <= k <= |p.content| ensures !PageFits(p, k, limit) {
          if PageFits(p, k, limit) { PageFitsDownward(p, mid, k, limit); }
        }
        high := mid - 1;
      }
    }
    FitsByDefinition(p, kept, limit);
    CutIsUnique(p, kept, limit);
  }

  /** One skill of a list page; files are opaque encoded entries. */
  datatype Skill = Skill(
    id: string,
    files: seq<string>,
    filesTruncated: bool,
    nextFileOffset: Option<int>,
    description: Option<string>,
    name: Option<string>)

  datatype SkillPage = SkillPage(
    scopeFiles: bool,
    start: int,
    skills: seq<Skill>,
    nextOffset: Option<int>,
    hasMore: bool,
    truncated: bool,
    retryMessage: bool)

  /** The page one shrink smaller: the last skill goes first, then the files of
      the only skill from the end, then its description, then its name. */
  function Shrink(p: SkillPage): Option<SkillPage>
  {
    var n := |p.skills|;
    if n > 1 then
      Some(p.(skills := p.skills[..n - 1], nextOffset := Some(p.start + n - 1), hasMore := true, truncated := true))
    else if n == 1 then
      var item := p.skills[0];
      var m := |item.files|;
      if m > 0 then
        var fileStart := if p.scopeFiles then p.start else 0;
        var cut := item.(files := item.files[..m - 1], filesTruncated := true,
            nextFileOffset := Some(fileStart + m - 1));
        Some(p.(skills := [cut], hasMore := true, truncated := true,
                nextOffset := if p.scopeFiles then Some(p.start + m - 1) else p.nextOffset))
      else if item.description.Some? then Some(p.(skills := [item.(description := None)]))
      else if item.name.Some? then Some(p.(skills := [item.(name := None)]))
      else None
    else None
  }

  /** The lexicographic measure of the shrink loop. */
  function SkillsLeft(p: SkillPage): nat { |p.skills| }

  function FilesLeft(p: SkillPage): nat { if |p.skills| == 1 then |p.skills[0].files| else 0 }

  function FieldsLeft(p: SkillPage): nat
  {
    if |p.skills| == 1 then
      (if p.skills[0].description.Some? then 1 else 0) + (if p.skills[0].name.Some? then 1 else 0)
    else 0
  }

  lemma {:induction false} ShrinkDecreases(p: SkillPage)
    requires Shrink(p).Some?
    ensures var q := Shrink(p).value;
            || SkillsLeft(q) < SkillsLeft(p)
            || (SkillsLeft(q) == SkillsLeft(p) && FilesLeft(q) < FilesLeft(p))
            || (SkillsLeft(q) == SkillsLeft(p) && FilesLeft(q) == FilesLeft(p) && FieldsLeft(q) < FieldsLeft(p))
  {
  }

  /** One turn takes one thing: a skill while there are others, else a file of
      the only one, else its description, else its name; with none of these left
      it stops. */
  lemma {:induction false} ShrinkTakesOne(p: SkillPage)
    ensures Shrink(p) == None <==> SkillsLeft(p) == 0 || (SkillsLeft(p) == 1 && FilesLeft(p) == 0 && FieldsLeft(p) == 0)
    ensures Shrink(p).Some? ==>
              var q := Shrink(p).value;
              if SkillsLeft(p) > 1 then SkillsLeft(q) == SkillsLeft(p) - 1
              else if FilesLeft(p) > 0 then
                SkillsLeft(q) == 1 && FilesLeft(q) == FilesLeft(p) - 1 && FieldsLeft(q) == FieldsLeft(p)
              else
                SkillsLeft(q) == 1 && FilesLeft(q) == 0 && FieldsLeft(q) == FieldsLeft(p) - 1
                && (p.skills[0].description.Some? ==> q.skills[0].name == p.skills[0].name)
  {
  }

  function RetryPage(p: SkillPage): SkillPage
  {
    p.(skills := [], nextOffset := Some(p.start), hasMore := true, truncated := true, retryMessage := true)
  }

  /** The only skill left, against the one it was: a prefix of its files with
      the offset right behind it; its description and name go last. */
  predicate Trimmed(was: Skill, item: Skill, fileStart: int)
  {
    && item.id == was.id && item.files <= was.files
    && (if item.files == was.files
        then item.filesTruncated == was.filesTruncated && item.nextFileOffset == was.nextFileOffset
        else item.filesTruncated && item.nextFileOffset == Some(fileStart + |item.files|))
    && (item.description == was.description || (item.description == None && item.files == []))
    && (item.name == was.name || (item.name == None && item.description == None && item.files == []))
  }

  /** What every page the loop offers owes the page it started from: prefixes
      of it, and offsets at the start plus what was kept. */
  predicate Continues(o: SkillPage, p: SkillPage)
  {
    var k, n, fileStart := |p.skills|, |o.skills|, if o.scopeFiles then o.start else 0;
    && p.start == o.start && p.scopeFiles == o.scopeFiles && p.retryMessage == o.retryMessage
    && k <= n && (k == 0 ==> n == 0)
    && (k > 1 ==> p.skills == o.skills[..k])
    && (k == 1 ==> Trimmed(o.skills[0], p.skills[0], fileStart))
    && var cutFiles := k == 1 && p.skills[0].files != o.skills[0].files;
       && p.hasMore == (o.hasMore || k < n || cutFiles)
       && p.truncated == (o.truncated || k < n || cutFiles)
       && p.nextOffset == if cutFiles && o.scopeFiles then Some(o.start + |p.skills[0].files|)
                          else if k < n then Some(o.start + k) else o.nextOffset
  }

  lemma {:induction false} ShrinkSkillsContinues(o: SkillPage, p: SkillPage)
    requires Continues(o, p) && |p.skills| > 1
    ensures Continues(o, Shrink(p).value)
  {
    var k := |p.skills| - 1;
    assert p.skills[..k] == o.skills[..k];
    assert p.skills[..k][0] == o.skills[0];
  }

  lemma {:induction false} ShrinkFilesContinues(o: SkillPage, p: SkillPage)
    requires Continues(o, p) && |p.skills| == 1 && p.skills[0].files != []
    ensures Continues(o, Shrink(p).value)
  {
    var was, m := o.skills[0].files, |p.skills[0].files|;
    assert p.skills[0].files[..m - 1] == was[..m - 1];
    assert |was[..m - 1]| != |was|;
  }

  lemma {:induction false} ShrinkFieldsContinues(o: SkillPage, p: SkillPage)
    requires Continues(o, p) && |p.skills| == 1 && p.skills[0].files == [] && Shrink(p).Some?
    ensures Continues(o, Shrink(p).value)
  {
    hide Trimmed;
    FieldsGoLast(o.skills[0], p.skills[0], if o.scopeFiles then o.start else 0);
  }

  /** With its files gone, a skill may lose its description and then its name. */
  lemma {:induction false} FieldsGoLast(was: Skill, item: Skill, fileStart: int)
    requires Trimmed(was, item, fileStart) && item.files == []
    ensures Trimmed(was, item.(description := None), fileStart)
    ensures item.description.None? ==> Trimmed(was, item.(name := None), fileStart)
  {
  }

  /** Shrinking keeps prefixes and points the offsets behind what is kept. */
  lemma {:induction false} ShrinkContinues(o: SkillPage, p: SkillPage)
    requires Continues(o, p) && Shrink(p).Some?
    ensures Continues(o, Shrink(p).value)
  {
    hide Continues;
    if |p.skills| > 1 {
      ShrinkSkillsContinues(o, p);
    } else if p.skills[0].files != [] {
      ShrinkFilesContinues(o, p);
    } else {
      ShrinkFieldsContinues(o, p);
    }
  }

  lemma {:induction false} StartContinues(o: SkillPage)
    ensures Continues(o, o)
  {
    assert o.skills[..|o.skills|] == o.skills;
  }

  lemma {:induction false} RetryAgrees(o: SkillPage, p: SkillPage)
    requires Continues(o, p) && Shrink(p) == None
    ensures RetryPage(p) == RetryPage(o)
  {
  }

  /** The encoding of the first page of the shrink chain that fits, else of the
      page that asks for a retry. */
  function FirstFitting(encode: SkillPage -> string, p: SkillPage, limit: int): string
    decreases SkillsLeft(p), FilesLeft(p), FieldsLeft(p)
  {
    if EstimateTextTokens(encode(p)) <= limit then encode(p)
    else if Shrink(p).None? then encode(RetryPage(p))
    else
      ShrinkDecreases(p);
      FirstFitting(encode, Shrink(p).value, limit)
  }

  /** The first page of the shrink chain that fits is returned; if none does,
      the page without skills asks for a retry at the same offset. */
  method TruncateSkillListToolResult(encode: SkillPage -> string, o: SkillPage, limit: int)
    returns (encoded: string, fits: bool, ghost page: SkillPage, ghost tried: seq<SkillPage>)
    ensures encoded == encode(page) == FirstFitting(encode, o, limit)
        && (fits <==> EstimateTextTokens(encoded) <= limit)
    ensures Continues(o, page) || page == RetryPage(o)
    ensures |tried| > 0 ==> tried[0] == o
    ensures forall i | 0 <= i < |tried| :: EstimateTextTokens(encode(tried[i])) > limit
    ensures forall i | 0 < i < |tried| :: Shrink(tried[i - 1]) == Some(tried[i])
    ensures page == (if tried == [] then o
                     else if Shrink(tried[|tried| - 1]).Some? then Shrink(tried[|tried| - 1]).value
                     else RetryPage(o))
  {
    hide EstimateTextTokens, Continues, Shrink, SkillsLeft, FilesLeft, FieldsLeft;
    StartContinues(o);
    var payload := o;
    page, tried := o, [];
    while true
      invariant page == payload && Continues(o, payload)
      invariant FirstFitting(encode, o, limit) == FirstFitting(encode, payload, limit)
      invariant |tried| > 0 ==> tried[0] == o && Shrink(tried[|tried| - 1]) == Some(payload)
      invariant tried == [] ==> payload == o
      invariant forall i | 0 <= i < |tried| :: EstimateTextTokens(encode(tried[i])) > limit
      invariant forall i | 0 < i < |tried| :: Shrink(tried[i - 1]) == Some(tried[i])
      decreases SkillsLeft(payload), FilesLeft(payload), FieldsLeft(payload)
    {
      encoded := encode(payload);
      if EstimateTextTokens(encoded) <= limit {
        return encoded, true, payload, tried;
      }
      var smaller := Shrink(payload);
      tried := tried + [payload];
      if smaller == None {
        RetryAgrees(o, payload);
        break;
      }
      ShrinkDecreases(payload);
      ShrinkContinues(o, payload);
      payload := smaller.value;
      page := payload;
    }
    payload := RetryPage(payload);
    page := payload;
    encoded := encode(payload);
    fits := EstimateTextTokens(encoded) <= limit;
  }

  // ----- All of it together -----

  /** What a result decodes to: a page, a skill list with its encoder, and
      whether it reports success. */
  datatype Decoded = Decoded(page: Option<Page>, list: Option<SkillPage>, encode: SkillPage -> string, ok: bool)

  predicate Paged(toolName: string) { toolName == "skill_read" || toolName == "file_read" }

  /** The text that stands for a result within a limit. */
  function Bounded(toolName: string, result: string, d: Decoded, limit: int): string
  {
    if EstimateTextTokens(result) <= limit then result
    else if Paged(toolName) && d.page.Some? && CutPage(d.page.value, limit).Some?
    then CutPage(d.page.value, limit).value
    else if toolName == "skill_list" && d.list.Some?
            && EstimateTextTokens(FirstFitting(d.encode, d.list.value, limit)) <= limit
    then FirstFitting(d.encode, d.list.value, limit)
    else Excerpted(toolName, result, d.ok, limit)
  }

  /** A result that is too large is replaced by as much of its page as fits, if it
      is one of a paging tool and not even its frame is too large. */
  lemma {:induction false} PagesAreCut(toolName: string, result: string, d: Decoded, limit: int) returns (k: nat)
    requires EstimateTextTokens(result) > limit
    requires toolName == "skill_read" || toolName == "file_read"
    requires d.page.Some? && EstimateTextTokens(EncodePage(d.page.value, 0)) <= limit
    ensures k <= |d.page.value.content| && Bounded(toolName, result, d, limit) == EncodePage(d.page.value, k)
    ensures EstimateTextTokens(EncodePage(d.page.value, k)) <= limit
    ensures forall j | k < j <= |d.page.value.content| :: EstimateTextTokens(EncodePage(d.page.value, j)) > limit
  {
    hide EncodePage, CutAt, EstimateTextTokens, Excerpted, FirstFitting;
    var p := d.page.value;
    k := CutAt(p, |p.content|, limit);
    FitsByDefinition(p, 0, limit);
    FitsByDefinition(p, k, limit);
    CutAtIsLongest(p, |p.content|, limit);
    forall j | k < j <= |p.content| ensures EstimateTextTokens(EncodePage(p, j)) > limit {
      FitsByDefinition(p, j, limit);
    }
  }

  /** A list of skills that is too large is replaced by one of its shorter pages,
      if any of those it is tried with fits. */
  lemma {:induction false} ListsAreShrunk(result: string, d: Decoded, limit: int)
    requires EstimateTextTokens(result) > limit && d.list.Some?
    requires EstimateTextTokens(FirstFitting(d.encode, d.list.value, limit)) <= limit
    ensures Bounded("skill_list", result, d, limit) == FirstFitting(d.encode, d.list.value, limit)
  {
    hide EstimateTextTokens, FirstFitting, Excerpted, CutPage;
  }

  /** Everything else becomes the longest excerpt of its trimmed text. */
  lemma {:induction false} OthersAreExcerpted(toolName: string, result: string, d: Decoded, limit: int) returns (k: nat)
    requires EstimateTextTokens(result) > limit >= MIN_GRANT_TOKENS
    requires toolName !in {"skill_read", "file_read", "skill_list"}
    requires EstimateTextTokens(EncodePage(Excerpt(toolName, result, d.ok), 0)) <= limit
    ensures k <= |TrimSpace(result)|
    ensures Bounded(toolName, result, d, limit) == EncodePage(Excerpt(toolName, result, d.ok), k)
    ensures forall j | k < j <= |TrimSpace(result)| ::
              EstimateTextTokens(EncodePage(Excerpt(toolName, result, d.ok), j)) > limit
  {
    hide EncodePage, CutAt, EstimateTextTokens, FirstFitting, TrimSpace, Decimal;
    var p := Excerpt(toolName, result, d.ok);
    k := CutAt(p, |p.content|, limit);
    FitsByDefinition(p, 0, limit);
    CutAtIsLongest(p, |p.content|, limit);
    forall j | k < j <= |p.content| ensures EstimateTextTokens(EncodePage(p, j)) > limit {
      FitsByDefinition(p, j, limit);
    }
  }

  method BoundToolResultToTokens(toolName: string, result: string, d: Decoded, limit: int) returns (bounded: string)
    ensures bounded == Bounded(toolName, result, d, limit)
    ensures EstimateTextTokens(result) <= limit ==> bounded == result
    ensures EstimateTextTokens(bounded) <= limit || bounded == ExhaustedNotice(toolName)
        || bounded == OverBudgetNotice(toolName)
  {
    BoundedFitsOrNotice(toolName, result, d, limit);
    hide EstimateTextTokens, Continues, CutPage, FirstFitting, Excerpted, PageFits, Shrink, TrimSpace;
    if EstimateTextTokens(result) <= limit {
      return result;
    }
    if Paged(toolName) && d.page.Some? {
      var best, kept := TruncatePagedToolResult(d.page.value, limit);
      if best.Some? {
        return best.value;
      }
    }
    if toolName == "skill_list" && d.list.Some? {
      var encoded, fits, page, tried := TruncateSkillListToolResult(d.encode, d.list.value, limit);
      if fits {
        return encoded;
      }
    }
    var best, kept := TruncateToolResultForContext(toolName, result, d.ok, limit);
    return best;
  }

  lemma {:induction false} BoundedFitsOrNotice(toolName: string, result: string, d: Decoded, limit: int)
    ensures var bounded := Bounded(toolName, result, d, limit);
            EstimateTextTokens(bounded) <= limit || bounded == ExhaustedNotice(toolName)
                || bounded == OverBudgetNotice(toolName)
    ensures limit >= MIN_GRANT_TOKENS && EstimateTextTokens(OverBudgetNotice(toolName)) <= limit ==>
              EstimateTextTokens(Bounded(toolName, result, d, limit)) <= limit
  {
    hide EstimateTextTokens, CutPage, FirstFitting, Excerpt, Notice;
    if d.page.Some? { CutFits(d.page.value, limit); }
    CutFits(Excerpt(toolName, result, d.ok), limit);
  }

  /** The empty excerpt is larger than the notice in its place, so where the
      notice does not fit no excerpt does. */
  lemma {:induction false} ExcerptIsLarger(toolName: string, result: string, ok: bool)
    ensures ByteLen(EncodePage(Excerpt(toolName, result, ok), 0)) >= ByteLen(OverBudgetNotice(toolName))
  {
    hide ByteLen, TrimSpace, Decimal, JsonString, JsonRunes, OverBudgetNotice, EstimateTextTokens;
    var p := Excerpt(toolName, result, ok);
    SettlingNoticeBytes(toolName);
    JsonStringBytes(toolName);
    var numeral := Decimal(EstimateTextTokens(result));
    var flag := if ok then "true" else "false";
    var head := ",\"message\":\"" + EXCERPT_NOTE + "\",\"ok\":" + flag + ",\"original_context_tokens\":" + numeral
        + ",\"tool\":";
    ByteLenConcat(head, JsonString(toolName));
    ByteLenConcat(head + JsonString(toolName), ",\"truncated\":true}");
    ByteLenBounds(head);
    PageBytesExact(p, 0);
    NoteIsLong();
  }

  lemma {:induction false} NoteIsLong()
    ensures |EXCERPT_NOTE| >= 110
  {
  }

  // ----- When a result is settled within its grant -----

  /** The texts the code produces, for any decoder of results and any choice of
      a notice's fields. */
  function CodeEncoder(decode: string -> Decoded, fields: string -> string): Encoder
  {
    Encoder(
      (toolName, result, limit) => Bounded(toolName, result, decode(result), limit),
      toolName => TooLargeNotice(toolName),
      notice => "{" + fields(notice) + "}")
  }

  /** The paged tools have short names, so their notice always fits. */
  lemma {:induction false} PagedNoticeFits(toolName: string)
    requires Paged(toolName) || toolName == "skill_list"
    ensures EstimateTextTokens(OverBudgetNotice(toolName)) <= MIN_GRANT_TOKENS
  {
    hide ByteLen, OverBudgetNotice, JsonRunes;
    SettlingNoticeBytes(toolName);
    JsonRunesBytes(toolName);
  }

  lemma {:induction false} BoundedExactly(toolName: string, result: string, d: Decoded, limit: int)
    requires limit >= MIN_GRANT_TOKENS
    ensures EstimateTextTokens(Bounded(toolName, result, d, limit)) <= limit
            <==> EstimateTextTokens(result) <= limit || EstimateTextTokens(OverBudgetNotice(toolName)) <= limit
  {
    hide ByteLen, CutPage, FirstFitting, Excerpt, OverBudgetNotice, EncodePage;
    BoundedFitsOrNotice(toolName, result, d, limit);
    if Paged(toolName) || toolName == "skill_list" {
      PagedNoticeFits(toolName);
    } else if EstimateTextTokens(OverBudgetNotice(toolName)) > limit {
      ExcerptIsLarger(toolName, result, d.ok);
      NoCut(Excerpt(toolName, result, d.ok), limit);
    }
  }

  lemma {:induction false} NoCut(p: Page, limit: int)
    requires EstimateTextTokens(EncodePage(p, 0)) > limit
    ensures CutPage(p, limit) == None
  {
  }

  /** A grant is settled within it exactly if the result fits as it is or the
      shortening's own notice does; the longer notice never saves the day. */
  lemma {:induction false} SettledExactly(decode: string -> Decoded, fields: string -> string, toolName: string,
                                          result: string, tokens: int)
    requires tokens >= MIN_GRANT_TOKENS
    ensures EstimateTextTokens(SettledText(CodeEncoder(decode, fields), toolName, result, tokens)) <= tokens
            <==> EstimateTextTokens(result) <= tokens || 137 + ByteLen(JsonRunes(toolName)) <= 3 * tokens
  {
    hide ByteLen, Bounded, TooLargeNotice, OverBudgetNotice, JsonRunes;
    BoundedExactly(toolName, result, decode(result), tokens);
    SettlingNoticeBytes(toolName);
  }

  /** A result that fits is what its grant is settled with. */
  lemma {:induction false} FittingIsSettled(decode: string -> Decoded, fields: string -> string, toolName: string,
                                            result: string, tokens: int)
    requires EstimateTextTokens(result) <= tokens
    ensures SettledText(CodeEncoder(decode, fields), toolName, result, tokens) == result
  {
    hide EstimateTextTokens, TooLargeNotice;
    var encoder := CodeEncoder(decode, fields);
    assert encoder.shorten(toolName, result, tokens) == Bounded(toolName, result, decode(result), tokens);
  }

  lemma {:induction false} LettersBytes(n: nat)
    ensures ByteLen(Letters(n)) == n && JsonRunes(Letters(n)) == Letters(n)
  {
    hide ByteLen;
    AsciiByteLen(Letters(n));
    PlainRunes(Letters(n));
  }

  lemma {:induction false} PlainRunes(s: string)
    requires forall k | 0 <= k < |s| :: s[k] == 'x'
    ensures JsonRunes(s) == s
  {
    if s != "" {
      PlainRunes(s[..|s| - 1]);
    }
  }

  /** Every result of a tool is settled within its grant, whatever it is and
      however large the grant, exactly if the tool's encoded name takes at most
      1399 bytes. */
  lemma {:induction false} SettlesExactly(decode: string -> Decoded, fields: string -> string, toolName: string)
    ensures Settles(CodeEncoder(decode, fields), toolName) <==> ByteLen(JsonRunes(toolName)) <= 1399
  {
    hide ByteLen, JsonRunes, SettledText, CodeEncoder;
    var e := CodeEncoder(decode, fields);
    var large := Letters(1537);
    LettersBytes(1537);
    SettledExactly(decode, fields, toolName, large, MIN_GRANT_TOKENS);
    if ByteLen(JsonRunes(toolName)) <= 1399 {
      forall result, tokens | tokens >= MIN_GRANT_TOKENS
        ensures EstimateTextTokens(SettledText(e, toolName, result, tokens)) <= tokens
      {
        SettledExactly(decode, fields, toolName, result, tokens);
      }
    } else {
      assert EstimateTextTokens(SettledText(e, toolName, large, MIN_GRANT_TOKENS)) > MIN_GRANT_TOKENS;
    }
  }

  /** A tool whose name has 1400 letters overruns the smallest grant with any
      result of 1537 letters. */
  lemma {:induction false} LongNameOverruns(decode: string -> Decoded, fields: string -> string)
    ensures EstimateTextTokens(SettledText(CodeEncoder(decode, fields), Letters(1400), Letters(1537), MIN_GRANT_TOKENS))
            > MIN_GRANT_TOKENS
    ensures !Settles(CodeEncoder(decode, fields), Letters(1400))
  {
    hide ByteLen, JsonRunes, SettledText, CodeEncoder, Settles;
    LettersBytes(1400);
    LettersBytes(1537);
    SettledExactly(decode, fields, Letters(1400), Letters(1537), MIN_GRANT_TOKENS);
    SettlesExactly(decode, fields, Letters(1400));
  }

  /** Names of up to 233 characters are short enough. */
  lemma {:induction false} ShortNamesSettle(decode: string -> Decoded, fields: string -> string, toolName: string)
    requires |toolName| <= 233
    ensures Settles(CodeEncoder(decode, fields), toolName)
  {
    hide ByteLen, JsonRunes, CodeEncoder, Settles;
    JsonRunesBytes(toolName);
    SettlesExactly(decode, fields, toolName);
  }
}
