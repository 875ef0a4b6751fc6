/** Putting back together paragraphs that a document extractor cut at the
    page width. */
module SoftWrap {
  import opened Sequences
  import opened Text

  /** The Unicode tables. */
  datatype Classes = Classes(isDigit: char -> bool, isCJK: char -> bool)

  // ----- Lines -----

  predicate HasPrefix(s: string, prefix: string) { prefix <= s }

  predicate IsFenceLine(trimmed: string)
  {
    HasPrefix(trimmed, "```") || HasPrefix(trimmed, "~~~")
  }

  function LeadingDigits(c: Classes, s: string): (n: nat)
    ensures n <= |s|
  {
    if s != "" && c.isDigit(s[0]) then 1 + LeadingDigits(c, s[1..]) else 0
  }

  predicate IsListLine(c: Classes, trimmed: string)
  {
    || HasPrefix(trimmed, "- ") || HasPrefix(trimmed, "* ") || HasPrefix(trimmed, "+ ")
    || (var n := LeadingDigits(c, trimmed); n > 0 && (HasPrefix(trimmed[n..], ". ") || HasPrefix(trimmed[n..], ") ")))
  }

  function Pipes(s: string): nat
  {
    if s == "" then 0 else (if s[0] == '|' then 1 else 0) + Pipes(s[1..])
  }

  /** Three bytes or more of dashes, stars, underscores and spaces. */
  predicate IsHorizontalRule(trimmed: string)
  {
    ByteLen(trimmed) >= 3
    && forall k | 0 <= k < |trimmed| :: trimmed[k] in "-*_" || IsSpace(trimmed[k])
  }

  predicate IsStructuredTextLine(c: Classes, line: string)
  {
    var trimmed := TrimSpace(line);
    trimmed != ""
    && (|| (exists k | 0 <= k < |line| :: line[k] == '\t')
        || HasPrefix(trimmed, "#") || HasPrefix(trimmed, ">")
        || IsListLine(c, trimmed) || Pipes(trimmed) >= 2 || IsHorizontalRule(trimmed))
  }

  // ----- Joining two lines -----

  predicate IsASCIIWord(r: char) { 'a' <= r <= 'z' || 'A' <= r <= 'Z' }

  predicate IsClosingPunctuation(r: char)
  {
    r in ",.;:!?\U{FF0C}\U{3002}\U{FF01}\U{FF1F}\U{3001}\U{FF1B}\U{FF1A})]}\U{300B}\U{201D}\U{2019}"
  }

  predicate IsOpeningPunctuation(r: char)
  {
    r in "([{\U{300A}\U{201C}\U{2018}"
  }

  function JoinProseLine(c: Classes, left: string, right: string): string
  {
    if left == "" then right
    else if right == "" then left
    else
      var n := |left| - 1;
      if left[n] == '-' && n > 0 && IsASCIIWord(left[n - 1]) && IsASCIIWord(right[0]) then left[..n] + right
      else if c.isCJK(left[n]) && c.isCJK(right[0]) then left + right
      else if IsClosingPunctuation(right[0]) then left + right
      else if IsOpeningPunctuation(left[n]) then left + right
      else left + " " + right
  }

  function JoinProse(c: Classes, lines: seq<string>): string
  {
    if lines == [] then ""
    else if |lines| == 1 then TrimSpace(lines[0])
    else JoinProseLine(c, JoinProse(c, lines[..|lines| - 1]), TrimSpace(lines[|lines| - 1]))
  }

  method JoinProseLines(c: Classes, lines: seq<string>) returns (out: string)
    ensures out == JoinProse(c, lines)
  {
    hide JoinProseLine, TrimSpace;
    if |lines| == 0 {
      return "";
    }
    out := TrimSpace(lines[0]);
    assert lines[..1] == [lines[0]];
    for k := 1 to |lines|
      invariant out == JoinProse(c, lines[..k])
    {
      assert lines[..k + 1][..k] == lines[..k];
      out := JoinProseLine(c, out, TrimSpace(lines[k]));
    }
    assert lines[..|lines|] == lines;
  }

  // ----- The loop -----

  datatype Progress = Progress(out: seq<string>, paragraph: seq<string>, inFence: bool)

  function Flushed(c: Classes, p: Progress): Progress
  {
    if p.paragraph == [] then p else p.(out := p.out + [JoinProse(c, p.paragraph)], paragraph := [])
  }

  function Step(c: Classes, p: Progress, line: string): Progress
  {
    var trimmed := TrimSpace(line);
    var flushed := Flushed(c, p);
    if trimmed == "" then
      if flushed.out == [] || flushed.out[|flushed.out| - 1] != "" then flushed.(out := flushed.out + [""]) else flushed
    else if IsFenceLine(trimmed) then flushed.(out := flushed.out + [line], inFence := !p.inFence)
    else if p.inFence || IsStructuredTextLine(c, line) then flushed.(out := flushed.out + [line])
    else p.(paragraph := p.paragraph + [trimmed])
  }

  function Steps(c: Classes, lines: seq<string>): Progress
  {
    if lines == [] then Progress([], [], false) else Step(c, Steps(c, lines[..|lines| - 1]), lines[|lines| - 1])
  }

  function NewlineRun(s: string): (n: nat)
    ensures n <= |s| && forall k | 0 <= k < n :: s[k] == '\n'
    ensures n < |s| ==> s[n] != '\n'
  {
    if s != "" && s[0] == '\n' then 1 + NewlineRun(s[1..]) else 0
  }

  /** Three newlines or more become two. */
  function Collapse(s: string): string
    decreases |s|
  {
    if s == "" then ""
    else
      var n := NewlineRun(s);
      if n == 0 then [s[0]] + Collapse(s[1..])
      else (if n >= 3 then "\n\n" else s[..n]) + Collapse(s[n..])
  }

  function Merged(c: Classes, s: string): string
  {
    if TrimSpace(s) == "" then ""
    else TrimSpace(Collapse(Join(Flushed(c, Steps(c, SplitLines(s))).out, "\n")))
  }

  method FlushParagraph(c: Classes, out: seq<string>, paragraph: seq<string>, ghost inFence: bool)
    returns (after: seq<string>)
    ensures after == Flushed(c, Progress(out, paragraph, inFence)).out
  {
    if |paragraph| == 0 {
      return out;
    }
    var joined := JoinProseLines(c, paragraph);
    return out + [joined];
  }

  method MergeSoftWrappedProse(c: Classes, s: string) returns (r: string)
    ensures r == Merged(c, s)
  {
    hide TrimSpace, IsStructuredTextLine, IsFenceLine, Flushed, Collapse, Join, SplitLines;
    if TrimSpace(s) == "" {
      return "";
    }
    var lines := SplitLines(s);
    var out: seq<string>, paragraph: seq<string>, inFence := [], [], false;
    FlushIsClean(c);
    for k := 0 to |lines|
      invariant Progress(out, paragraph, inFence) == Steps(c, lines[..k])
    {
      assert lines[..k + 1][..k] == lines[..k];
      var line := lines[k];
      var trimmed := TrimSpace(line);
      if trimmed == "" {
        out := FlushParagraph(c, out, paragraph, inFence);
        paragraph := [];
        if |out| == 0 || out[|out| - 1] != "" {
          out := out + [""];
        }
      } else if IsFenceLine(trimmed) {
        out := FlushParagraph(c, out, paragraph, inFence);
        paragraph := [];
        out := out + [line];
        inFence := !inFence;
      } else if inFence || IsStructuredTextLine(c, line) {
        out := FlushParagraph(c, out, paragraph, inFence);
        paragraph := [];
        out := out + [line];
      } else {
        paragraph := paragraph + [trimmed];
      }
    }
    assert lines[..|lines|] == lines;
    out := FlushParagraph(c, out, paragraph, inFence);
    r := TrimSpace(Collapse(Join(out, "\n")));
  }

  lemma {:induction false} FlushIsClean(c: Classes)
    ensures forall p: Progress :: Flushed(c, p).paragraph == [] && Flushed(c, p).inFence == p.inFence
  {
  }

  // ----- Only white space and broken words change -----

  function NonSpace(s: string): string
  {
    if s == "" then "" else NonSpace(s[..|s| - 1]) + if IsSpace(s[|s| - 1]) then "" else [s[|s| - 1]]
  }

  lemma {:induction false} NonSpaceConcat(a: string, b: string)
    ensures NonSpace(a + b) == NonSpace(a) + NonSpace(b)
  {
    hide IsSpace;
    if b == "" {
      assert a + b == a;
    } else {
      var init, last := b[..|b| - 1], b[|b| - 1];
      NonSpaceConcat(a, init);
      assert (a + b)[..|a + b| - 1] == a + init && (a + b)[|a + b| - 1] == last;
      Assoc(NonSpace(a), NonSpace(init), if IsSpace(last) then "" else [last]);
    }
  }

  lemma {:induction false} NonSpaceOfBlank(s: string)
    requires forall k | 0 <= k < |s| :: IsSpace(s[k])
    ensures NonSpace(s) == ""
  {
    if s != "" {
      NonSpaceOfBlank(s[..|s| - 1]);
    }
  }

  lemma {:induction false} NonSpaceOfTrimmed(s: string)
    ensures NonSpace(TrimSpace(s)) == NonSpace(s)
  {
    hide TrimLeft, TrimRight, IsSpace, NonSpace;
    var l := TrimLeft(s);
    var r := TrimRight(l);
    assert s == s[..|s| - |l|] + l;
    NonSpaceConcat(s[..|s| - |l|], l);
    NonSpaceOfBlank(s[..|s| - |l|]);
    assert l == r + l[|r|..];
    NonSpaceConcat(r, l[|r|..]);
    NonSpaceOfBlank(l[|r|..]);
  }

  function All(lines: seq<string>): string
  {
    if lines == [] then "" else All(lines[..|lines| - 1]) + NonSpace(lines[|lines| - 1])
  }

  lemma {:induction false} AllConcat(a: seq<string>, b: seq<string>)
    ensures All(a + b) == All(a) + All(b)
  {
    hide NonSpace;
    if b == [] {
      assert a + b == a;
    } else {
      var init, last := b[..|b| - 1], b[|b| - 1];
      AllConcat(a, init);
      assert (a + b)[..|a + b| - 1] == a + init && (a + b)[|a + b| - 1] == last;
      Assoc(All(a), All(init), NonSpace(last));
    }
  }

  lemma {:induction false} AllOne(line: string)
    ensures All([line]) == NonSpace(line)
  {
    assert [line][..0] == [] && All([]) == "";
  }

  lemma {:induction false} NonSpaceOfJoin(lines: seq<string>)
    ensures NonSpace(Join(lines, "\n")) == All(lines)
  {
    hide NonSpace;
    if |lines| == 0 {
      NonSpaceOfBlank("");
    } else {
      AllOne(lines[0]);
      if |lines| > 1 {
        NonSpaceOfJoin(lines[1..]);
        assert lines == [lines[0]] + lines[1..];
        AllConcat([lines[0]], lines[1..]);
        NonSpaceConcat(lines[0] + "\n", Join(lines[1..], "\n"));
        NonSpaceConcat(lines[0], "\n");
        NonSpaceOfBlank("\n");
      }
    }
  }

  lemma {:induction false} NonSpaceOfCollapse(s: string)
    ensures NonSpace(Collapse(s)) == NonSpace(s)
    decreases |s|
  {
    hide NonSpace;
    if s != "" {
      var n := NewlineRun(s);
      if n == 0 {
        NonSpaceOfCollapse(s[1..]);
        NonSpaceConcat([s[0]], Collapse(s[1..]));
        NonSpaceConcat([s[0]], s[1..]);
        assert s == [s[0]] + s[1..];
      } else {
        NonSpaceOfCollapse(s[n..]);
        var newlines := if n >= 3 then "\n\n" else s[..n];
        NonSpaceConcat(newlines, Collapse(s[n..]));
        NonSpaceConcat(s[..n], s[n..]);
        assert s == s[..n] + s[n..];
        NonSpaceOfBlank(newlines);
        NonSpaceOfBlank(s[..n]);
      }
    }
  }

  /** The text of a file is the text of its lines. */
  lemma {:induction false} AllOfSplit(s: string)
    ensures All(SplitLines(s)) == NonSpace(s)
  {
    hide NonSpace;
    if s == "" {
      AllOne("");
    } else {
      AllOfSplit(s[1..]);
      var rest := SplitLines(s[1..]);
      assert s == [s[0]] + s[1..];
      NonSpaceConcat([s[0]], s[1..]);
      if s[0] == '\n' {
        AllConcat([""], rest);
        AllOne("");
        NonSpaceOfBlank("\n");
        NonSpaceOfBlank("");
      } else {
        AllOfFront(s[0], rest);
      }
    }
  }

  lemma {:induction false} AllOfFront(c: char, parts: seq<string>)
    requires parts != []
    ensures All(Front([c], parts)) == NonSpace([c]) + All(parts)
  {
    hide NonSpace;
    var first := [c] + parts[0];
    assert parts == [parts[0]] + parts[1..];
    AllConcat([parts[0]], parts[1..]);
    AllConcat([first], parts[1..]);
    AllOne(parts[0]);
    AllOne(first);
    NonSpaceConcat([c], parts[0]);
  }

  // ----- Which hyphens go -----

  /** A word broken across two lines. */
  predicate Broken(left: string, right: string)
  {
    var n := |left| - 1;
    n > 0 && left[n] == '-' && IsASCIIWord(left[n - 1]) && right != "" && IsASCIIWord(right[0])
  }

  function DropLast(s: string): string { if s == "" then "" else s[..|s| - 1] }

  predicate InFence(lines: seq<string>, k: nat)
    requires k <= |lines|
  {
    k > 0 && (InFence(lines, k - 1) != IsFenceLine(TrimSpace(lines[k - 1])))
  }

  /** An ordinary line of running text. */
  predicate Prose(c: Classes, lines: seq<string>, k: nat)
    requires k < |lines|
  {
    && TrimSpace(lines[k]) != "" && !IsFenceLine(TrimSpace(lines[k]))
    && !InFence(lines, k) && !IsStructuredTextLine(c, lines[k])
  }

  /** The line ends in the hyphen of a word that the next line of the same
      paragraph goes on with. */
  predicate EndsBroken(c: Classes, lines: seq<string>, n: nat, k: nat)
    requires k < n <= |lines|
  {
    && k + 1 < n && Prose(c, lines, k) && Prose(c, lines, k + 1)
    && Broken(TrimSpace(lines[k]), TrimSpace(lines[k + 1]))
  }

  /** What is to stay of one line's visible characters. */
  function Stays(c: Classes, lines: seq<string>, n: nat, k: nat): string
    requires k < n <= |lines|
  {
    if EndsBroken(c, lines, n, k) then DropLast(NonSpace(lines[k])) else NonSpace(lines[k])
  }

  /** All that is to stay of the first k of n lines. */
  function Expected(c: Classes, lines: seq<string>, n: nat, k: nat): string
    requires k <= n <= |lines|
  {
    if k == 0 then "" else Expected(c, lines, n, k - 1) + Stays(c, lines, n, k - 1)
  }

  /** A line loses its final hyphen or nothing. */
  lemma {:induction false} OnlyHyphensGo(c: Classes, lines: seq<string>, n: nat, k: nat)
    requires k < n <= |lines|
    ensures NonSpace(lines[k]) == Stays(c, lines, n, k) + if EndsBroken(c, lines, n, k) then "-" else ""
  {
    hide IsStructuredTextLine, TrimSpace, IsFenceLine, IsSpace;
    if EndsBroken(c, lines, n, k) {
      NonSpaceOfTrimmed(lines[k]);
      HyphenShows(TrimSpace(lines[k]));
    }
  }

  lemma {:induction false} HyphenShows(t: string)
    requires t != "" && t[|t| - 1] == '-'
    ensures NonSpace(t) == NonSpace(t[..|t| - 1]) + "-"
    ensures DropLast(NonSpace(t)) == NonSpace(t[..|t| - 1])
  {
  }

  lemma {:induction false} ExpectedGrows(c: Classes, lines: seq<string>, n: nat, k: nat)
    requires k < n < |lines|
    ensures Expected(c, lines, n + 1, k) == Expected(c, lines, n, k)
  {
    hide Prose, Broken, NonSpace, TrimSpace;
    if k > 0 {
      ExpectedGrows(c, lines, n, k - 1);
    }
  }

  lemma {:induction false} ExpectedSnoc(c: Classes, lines: seq<string>, n: nat, k: nat)
    requires k < n <= |lines|
    ensures Expected(c, lines, n, k + 1) == Expected(c, lines, n, k) + Stays(c, lines, n, k)
  {
    hide Stays;
  }

  lemma {:induction false} NothingExpectedOfNone(c: Classes, lines: seq<string>, n: nat)
    requires n <= |lines|
    ensures Expected(c, lines, n, 0) == ""
  {
  }

  /** One more line may take the hyphen off the line before. */
  lemma {:induction false} ExpectedStep(c: Classes, lines: seq<string>, n: nat)
    requires n < |lines|
    ensures Expected(c, lines, n + 1, n + 1)
         == (if n > 0 && EndsBroken(c, lines, n + 1, n - 1) then DropLast(Expected(c, lines, n, n))
             else Expected(c, lines, n, n))
            + NonSpace(lines[n])
  {
    hide NonSpace, EndsBroken, DropLast, Expected;
    LastLineStays(c, lines, n + 1);
    ExpectedSnoc(c, lines, n + 1, n);
    NothingExpectedOfNone(c, lines, n);
    NothingExpectedOfNone(c, lines, n + 1);
    if n > 0 {
      ExpectedSnoc(c, lines, n + 1, n - 1);
      ExpectedSnoc(c, lines, n, n - 1);
      ExpectedGrows(c, lines, n, n - 1);
      LastLineStays(c, lines, n);
      if EndsBroken(c, lines, n + 1, n - 1) {
        OnlyHyphensGo(c, lines, n + 1, n - 1);
        DropLastConcat(Expected(c, lines, n, n - 1), NonSpace(lines[n - 1]));
      }
    }
  }

  lemma {:induction false} LastLineStays(c: Classes, lines: seq<string>, n: nat)
    requires 0 < n <= |lines|
    ensures !EndsBroken(c, lines, n, n - 1)
  {
  }

  lemma {:induction false} DropLastConcat(a: string, b: string)
    requires b != ""
    ensures DropLast(a + b) == a + DropLast(b)
  {
  }

  // ----- Joining -----

  /** What a paragraph keeps of its lines. */
  function Kept(paragraph: seq<string>): string
  {
    var n := |paragraph| - 1;
    if n < 0 then ""
    else (if n > 0 && Broken(paragraph[n - 1], paragraph[n]) then DropLast(Kept(paragraph[..n]))
        else Kept(paragraph[..n]))
         + NonSpace(paragraph[n])
  }

  predicate IsTrimmed(line: string)
  {
    line != "" && TrimSpace(line) == line
  }

  /** The joined text ends with its last line, and a line of a single hyphen
      never comes to stand right after a letter. */
  predicate EndsWith(text: string, line: string)
  {
    && 0 < |line| <= |text| && text[|text| - |line|..] == line
    && (line == "-" && |text| > 1 ==> !IsASCIIWord(text[|text| - 2]))
  }

  lemma {:induction false} JoinEnds(c: Classes, left: string, right: string)
    requires right != "" && !c.isCJK('-')
    ensures EndsWith(JoinProseLine(c, left, right), right)
  {
    hide IsClosingPunctuation, IsOpeningPunctuation;
    Punctuation();
    var joined := JoinProseLine(c, left, right);
    var front := joined[..|joined| - |right|];
    assert joined == front + right;
  }

  lemma {:induction false} Punctuation()
    ensures !IsClosingPunctuation('-')
    ensures forall r | IsASCIIWord(r) :: !IsOpeningPunctuation(r)
  {
  }

  /** The end of the joined text is broken exactly when its last line is. */
  lemma {:induction false} BrokenEnd(text: string, line: string, right: string)
    requires EndsWith(text, line) && right != ""
    ensures Broken(text, right) <==> Broken(line, right)
  {
    var n := |text| - |line|;
    assert forall k | 0 <= k < |line| :: text[n + k] == line[k];
    assert |line| == 1 && line[0] == '-' ==> line == "-";
  }

  lemma {:induction false} JoinKeeps(c: Classes, left: string, right: string)
    requires left != "" && right != ""
    ensures NonSpace(JoinProseLine(c, left, right))
         == (if Broken(left, right) then DropLast(NonSpace(left)) else NonSpace(left)) + NonSpace(right)
  {
    hide NonSpace, IsClosingPunctuation, IsOpeningPunctuation;
    var n := |left| - 1;
    NonSpaceConcat(left, right);
    NonSpaceConcat(left[..n], right);
    NonSpaceConcat(left + " ", right);
    NonSpaceConcat(left, " ");
    NonSpaceOfBlank(" ");
    if Broken(left, right) {
      HyphenShows(left);
    }
  }

  /** A paragraph keeps its visible characters but for the hyphens of broken
      words. */
  lemma {:induction false} ParagraphKeeps(c: Classes, paragraph: seq<string>)
    requires !c.isCJK('-') && paragraph != [] && forall k | 0 <= k < |paragraph| :: IsTrimmed(paragraph[k])
    ensures NonSpace(JoinProse(c, paragraph)) == Kept(paragraph)
    ensures EndsWith(JoinProse(c, paragraph), paragraph[|paragraph| - 1])
  {
    hide NonSpace, JoinProseLine, TrimSpace, Broken, IsASCIIWord;
    var n := |paragraph| - 1;
    if n == 0 {
      SingleLine(paragraph);
    } else {
      ParagraphKeeps(c, paragraph[..n]);
      var left := JoinProse(c, paragraph[..n]);
      BrokenEnd(left, paragraph[n - 1], paragraph[n]);
      JoinKeeps(c, left, paragraph[n]);
      JoinEnds(c, left, paragraph[n]);
    }
  }

  lemma {:induction false} SingleLine(paragraph: seq<string>)
    requires |paragraph| == 1 && paragraph[0] != ""
    ensures Kept(paragraph) == NonSpace(paragraph[0]) && EndsWith(paragraph[0], paragraph[0])
  {
    assert paragraph[..0] == [] && Kept([]) == "";
  }

  // ----- The whole text -----

  lemma {:induction false} TrimIsTrimmed(line: string)
    requires TrimSpace(line) != ""
    ensures IsTrimmed(TrimSpace(line))
  {
    hide IsSpace;
    var t := TrimSpace(line);
    assert TrimLeft(t) == t && TrimRight(t) == t;
  }

  /** Where the loop is after n lines. */
  predicate Tracks(c: Classes, lines: seq<string>, n: nat, p: Progress)
    requires n <= |lines|
  {
    && p.inFence == InFence(lines, n)
    && (forall k | 0 <= k < |p.paragraph| :: IsTrimmed(p.paragraph[k]))
    && (p.paragraph != [] <==> n > 0 && Prose(c, lines, n - 1))
    && (p.paragraph != [] ==> p.paragraph[|p.paragraph| - 1] == TrimSpace(lines[n - 1]))
    && All(p.out) + Kept(p.paragraph) == Expected(c, lines, n, n)
  }

  lemma {:induction false} FlushKeeps(c: Classes, p: Progress)
    requires !c.isCJK('-') && forall k | 0 <= k < |p.paragraph| :: IsTrimmed(p.paragraph[k])
    ensures All(Flushed(c, p).out) == All(p.out) + Kept(p.paragraph)
  {
    hide NonSpace, JoinProse, IsTrimmed;
    if p.paragraph == [] {
      assert Kept([]) == "";
    } else {
      ParagraphKeeps(c, p.paragraph);
      AllConcat(p.out, [JoinProse(c, p.paragraph)]);
      AllOne(JoinProse(c, p.paragraph));
    }
  }

  lemma {:induction false} FlushingStep(c: Classes, lines: seq<string>, n: nat, p: Progress)
    requires n < |lines| && !c.isCJK('-') && Tracks(c, lines, n, p) && !Prose(c, lines, n)
    ensures Tracks(c, lines, n + 1, Step(c, p, lines[n]))
  {
    hide NonSpace, IsTrimmed, TrimSpace, IsFenceLine, IsStructuredTextLine, Expected, Kept, All, JoinProse, Broken;
    ExpectedStep(c, lines, n);
    FlushKeeps(c, p);
    var line := lines[n];
    var out := Flushed(c, p).out;
    AllConcat(out, [line]);
    AllConcat(out, [""]);
    AllOne(line);
    AllOne("");
    NonSpaceOfBlank("");
    NonSpaceOfTrimmed(line);
    KeptNothing();
    BlankIsNoFence();
    var q := Step(c, p, line);
    assert All(q.out) == Expected(c, lines, n + 1, n + 1);
    assert All(q.out) + "" == All(q.out);
  }

  lemma {:induction false} BlankIsNoFence()
    ensures !IsFenceLine("")
  {
  }

  lemma {:induction false} KeptNothing()
    ensures Kept([]) == ""
  {
  }

  lemma {:induction false} ProseStep(c: Classes, lines: seq<string>, n: nat, p: Progress)
    requires n < |lines| && !c.isCJK('-') && Tracks(c, lines, n, p) && Prose(c, lines, n)
    ensures Tracks(c, lines, n + 1, Step(c, p, lines[n]))
  {
    hide NonSpace, IsTrimmed, TrimSpace, IsFenceLine, IsStructuredTextLine, Expected, Kept, All, JoinProse, Broken,
        DropLast;
    var t := TrimSpace(lines[n]);
    TrimIsTrimmed(lines[n]);
    NonSpaceOfTrimmed(lines[n]);
    ExpectedStep(c, lines, n);
    KeptStep(p.paragraph, t);
    KeptNothing();
    if p.paragraph != [] {
      KeptShows(p.paragraph);
      DropLastConcat(All(p.out), Kept(p.paragraph));
      Assoc(All(p.out), DropLast(Kept(p.paragraph)), NonSpace(t));
    }
    Assoc(All(p.out), Kept(p.paragraph), NonSpace(t));
  }

  lemma {:induction false} KeptStep(paragraph: seq<string>, t: string)
    ensures var n := |paragraph|;
            Kept(paragraph + [t])
                == (if n > 0 && Broken(paragraph[n - 1], t) then DropLast(Kept(paragraph)) else Kept(paragraph))
                    + NonSpace(t)
  {
    hide NonSpace, Broken;
    assert (paragraph + [t])[..|paragraph|] == paragraph;
  }

  lemma {:induction false} KeptShows(paragraph: seq<string>)
    requires paragraph != [] && IsTrimmed(paragraph[|paragraph| - 1])
    ensures Kept(paragraph) != ""
  {
    hide Broken, IsSpace;
    var line := paragraph[|paragraph| - 1];
    assert !IsSpace(line[|line| - 1]);
    assert NonSpace(line) != "";
  }

  lemma {:induction false} LoopTracks(c: Classes, lines: seq<string>, n: nat)
    requires n <= |lines| && !c.isCJK('-')
    ensures Tracks(c, lines, n, Steps(c, lines[..n]))
  {
    hide Step, Tracks;
    if n == 0 {
      TracksStart(c, lines);
    } else {
      LoopTracks(c, lines, n - 1);
      assert lines[..n][..n - 1] == lines[..n - 1];
      var p := Steps(c, lines[..n - 1]);
      if Prose(c, lines, n - 1) {
        ProseStep(c, lines, n - 1, p);
      } else {
        FlushingStep(c, lines, n - 1, p);
      }
    }
  }

  lemma {:induction false} TracksStart(c: Classes, lines: seq<string>)
    ensures Tracks(c, lines, 0, Progress([], [], false))
  {
    KeptNothing();
    assert All([]) == "";
  }

  /** The visible characters of the result are those of the text, in order,
      minus exactly the hyphens that break a word between two lines of one
      paragraph. */
  lemma {:induction false} OnlyBrokenWordsChange(c: Classes, s: string)
    requires !c.isCJK('-')
    ensures var lines := SplitLines(s);
            NonSpace(Merged(c, s)) == Expected(c, lines, |lines|, |lines|) && NonSpace(s) == All(lines)
  {
    hide Collapse, Join, Steps, Flushed, NonSpace, TrimSpace, Expected, IsSpace, SplitLines;
    var lines := SplitLines(s);
    AllOfSplit(s);
    if TrimSpace(s) == "" {
      NonSpaceOfTrimmed(s);
      NonSpaceOfBlank("");
      assert lines[..|lines|] == lines;
      NothingExpected(c, lines, |lines|);
    } else {
      LoopTracks(c, lines, |lines|);
      assert lines[..|lines|] == lines;
      var p := Steps(c, lines);
      FlushKeeps(c, p);
      NonSpaceOfJoin(Flushed(c, p).out);
      NonSpaceOfCollapse(Join(Flushed(c, p).out, "\n"));
      NonSpaceOfTrimmed(Collapse(Join(Flushed(c, p).out, "\n")));
    }
  }

  lemma {:induction false} LastShowsNothing(lines: seq<string>, k: nat)
    requires 0 < k <= |lines| && All(lines[..k]) == ""
    ensures All(lines[..k - 1]) == "" && NonSpace(lines[k - 1]) == ""
  {
    hide NonSpace;
    assert lines[..k][..k - 1] == lines[..k - 1];
    var a, b := All(lines[..k - 1]), NonSpace(lines[k - 1]);
    assert a + b == "";
    assert |a + b| == |a| + |b|;
  }

  lemma {:induction false} NothingStays(c: Classes, lines: seq<string>, k: nat)
    requires k < |lines| && NonSpace(lines[k]) == ""
    ensures Stays(c, lines, |lines|, k) == ""
  {
    hide NonSpace, EndsBroken;
  }

  lemma {:induction false} NothingExpected(c: Classes, lines: seq<string>, k: nat)
    requires k <= |lines| && All(lines[..k]) == ""
    ensures Expected(c, lines, |lines|, k) == ""
  {
    hide All, Stays;
    if k > 0 {
      LastShowsNothing(lines, k);
      NothingExpected(c, lines, k - 1);
      NothingStays(c, lines, k - 1);
    }
  }

  // ----- Which lines there are -----

  /** What stands between two lines that are joined: nothing inside a broken word,
      between two CJK characters, before a mark that closes and after one that
      opens; a blank everywhere else. */
  lemma {:induction false} LinesMeet(c: Classes, left: string, right: string)
    requires left != "" && right != ""
    ensures var last, first := left[|left| - 1], right[0];
            var tight := (c.isCJK(last) && c.isCJK(first)) || IsClosingPunctuation(first) || IsOpeningPunctuation(last);
            JoinProseLine(c, left, right)
            == if Broken(left, right) then left[..|left| - 1] + right
               else if tight then left + right else left + " " + right
  {
    hide IsClosingPunctuation, IsOpeningPunctuation;
  }

  /** The lines of the result, from the lines of the text: a run of blank lines is
      one, a line that is no running text is as it was, and neighbouring lines of
      running text are one line. */
  function Layout(c: Classes, lines: seq<string>, n: nat): (out: seq<string>)
    requires n <= |lines|
    ensures n > 0 ==> out != []
  {
    if n == 0 then []
    else
      var before, t := Layout(c, lines, n - 1), TrimSpace(lines[n - 1]);
      var m := |before| - 1;
      if t == "" then if before == [] || before[m] != "" then before + [""] else before
      else if !Prose(c, lines, n - 1) then before + [lines[n - 1]]
      else if n > 1 && Prose(c, lines, n - 2) then before[..m] + [JoinProseLine(c, before[m], t)]
      else before + [t]
  }

  /** Where the loop is after n lines, in terms of the lines. */
  predicate Laid(c: Classes, lines: seq<string>, n: nat, p: Progress)
    requires n <= |lines|
  {
    && p.inFence == InFence(lines, n)
    && (p.paragraph != [] <==> n > 0 && Prose(c, lines, n - 1))
    && Flushed(c, p).out == Layout(c, lines, n)
  }

  lemma {:induction false} JoinProseSnoc(c: Classes, paragraph: seq<string>, t: string)
    requires TrimSpace(t) == t
    ensures JoinProse(c, paragraph + [t]) == if paragraph == [] then t else JoinProseLine(c, JoinProse(c, paragraph), t)
  {
    hide TrimSpace, JoinProseLine;
    assert (paragraph + [t])[..|paragraph|] == paragraph;
  }

  lemma {:induction false} LaidStep(c: Classes, lines: seq<string>, n: nat, p: Progress)
    requires n < |lines| && Laid(c, lines, n, p)
    ensures Laid(c, lines, n + 1, Step(c, p, lines[n]))
  {
    hide TrimSpace, IsFenceLine, IsStructuredTextLine, JoinProse, JoinProseLine;
    BlankIsNoFence();
    FlushIsClean(c);
    if Prose(c, lines, n) {
      var t := TrimSpace(lines[n]);
      TrimIsTrimmed(lines[n]);
      JoinProseSnoc(c, p.paragraph, t);
    }
  }

  lemma {:induction false} LoopLays(c: Classes, lines: seq<string>, n: nat)
    requires n <= |lines|
    ensures Laid(c, lines, n, Steps(c, lines[..n]))
  {
    hide Step, Laid;
    if n == 0 {
      LaidStart(c, lines);
    } else {
      LoopLays(c, lines, n - 1);
      assert lines[..n][..n - 1] == lines[..n - 1];
      LaidStep(c, lines, n - 1, Steps(c, lines[..n - 1]));
    }
  }

  lemma {:induction false} LaidStart(c: Classes, lines: seq<string>)
    ensures Laid(c, lines, 0, Progress([], [], false))
  {
  }

  /** The merged text is that layout, trimmed and with no more than one blank line
      in a row. */
  lemma {:induction false} ParagraphsBecomeLines(c: Classes, s: string)
    ensures var lines := SplitLines(s);
            Merged(c, s)
            == if TrimSpace(s) == "" then ""
               else TrimSpace(Collapse(Join(Layout(c, lines, |lines|), "\n")))
  {
    hide TrimSpace, Collapse, Join, Steps, Layout, SplitLines, Flushed;
    var lines := SplitLines(s);
    LoopLays(c, lines, |lines|);
    assert lines[..|lines|] == lines;
  }

  /** Three newlines in a row. */
  predicate Triple(s: string, k: nat)
  {
    k + 2 < |s| && s[k] == '\n' && s[k + 1] == '\n' && s[k + 2] == '\n'
  }

  lemma {:induction false} CollapseStart(s: string)
    ensures Collapse(s) == "" <==> s == ""
    ensures s != "" ==> (Collapse(s)[0] == '\n' <==> s[0] == '\n')
    decreases |s|
  {
  }

  /** What Collapse puts in front of the rest. */
  lemma {:induction false} CollapseHead(s: string) returns (m: nat, head: string)
    requires s != ""
    ensures 0 < m <= |s| && Collapse(s) == head + Collapse(s[m..])
    ensures s[0] != '\n' ==> head == s[..m] && m == 1
    ensures s[0] == '\n' ==> 0 < |head| <= 2 && (m < |s| ==> s[m] != '\n')
    ensures s[0] == '\n' && !Triple(s, 0) ==> head == s[..m]
  {
    var n := NewlineRun(s);
    m := if n == 0 then 1 else n;
    head := if n == 0 then [s[0]] else if n >= 3 then "\n\n" else s[..n];
  }

  lemma {:induction false} TripleBehind(head: string, rest: string, k: nat)
    requires |head| <= k && Triple(head + rest, k)
    ensures Triple(rest, k - |head|)
  {
    var s, i := head + rest, k - |head|;
    assert rest[i] == s[k];
    assert rest[i + 1] == s[k + 1];
    assert rest[i + 2] == s[k + 2];
  }

  lemma {:induction false} TripleAcross(head: string, rest: string, k: nat)
    requires k < |head| <= 2 && Triple(head + rest, k)
    ensures rest != "" && rest[0] == '\n'
    ensures |head| == 1 ==> head[0] == '\n'
  {
    var s := head + rest;
    assert s[0] == head[0] && s[|head|] == rest[0];
  }

  lemma {:induction false} NoTripleAcross(head: string, rest: string, k: nat)
    requires !Triple(rest, if k < |head| then 0 else k - |head|)
    requires |head| <= 2
    requires head == "" || head[0] == '\n' ==> rest == "" || rest[0] != '\n'
    requires head != "" && head[0] != '\n' ==> |head| == 1
    ensures !Triple(head + rest, k)
  {
    hide Triple;
    if Triple(head + rest, k) {
      if k < |head| {
        TripleAcross(head, rest, k);
      } else {
        TripleBehind(head, rest, k);
      }
    }
  }

  lemma {:induction false} CollapseLeavesNoTriple(s: string, k: nat)
    ensures !Triple(Collapse(s), k)
    decreases |s|
  {
    hide Collapse;
    CollapseStart(s);
    if s != "" {
      var m, head := CollapseHead(s);
      CollapseLeavesNoTriple(s[m..], if k < |head| then 0 else k - |head|);
      CollapseStart(s[m..]);
      NoTripleAcross(head, Collapse(s[m..]), k);
    } else {
      assert Collapse(s) == "";
    }
  }

  lemma {:induction false} CollapseKeepsTheRest(s: string)
    requires forall k: nat :: !Triple(s, k)
    ensures Collapse(s) == s
    decreases |s|
  {
    hide Collapse;
    CollapseStart(s);
    if s != "" {
      assert !Triple(s, 0);
      var m, head := CollapseHead(s);
      forall k: nat ensures !Triple(s[m..], k) {
        assert !Triple(s, m + k);
      }
      CollapseKeepsTheRest(s[m..]);
      assert s == s[..m] + s[m..];
    }
  }
}
