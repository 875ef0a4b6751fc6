/** Tables written as GitHub Flavored Markdown, and what a reader of the
    format gets back from them. */
module MarkdownTable {
  import opened Sequences
  import opened Text

  // ----- The writer -----

  function Replace(s: string, old': char, new': string): string
  {
    if s == "" then ""
    else (if s[0] == old' then new' else [s[0]]) + Replace(s[1..], old', new')
  }

  function ReplaceCRLF(s: string): string
  {
    if s == "" then ""
    else if |s| >= 2 && s[0] == '\r' && s[1] == '\n' then "\n" + ReplaceCRLF(s[2..])
    else [s[0]] + ReplaceCRLF(s[1..])
  }

  function StripLeft(s: string, blank: char -> bool): (r: string)
    ensures |r| <= |s| && r == s[|s| - |r|..] && (r != "" ==> !blank(r[0]))
  {
    if s != "" && blank(s[0]) then StripLeft(s[1..], blank) else s
  }

  function StripRight(s: string, blank: char -> bool): (r: string)
    ensures |r| <= |s| && r == s[..|r|] && (r != "" ==> !blank(r[|r| - 1]))
  {
    if s != "" && blank(s[|s| - 1]) then StripRight(s[..|s| - 1], blank) else s
  }

  function Strip(s: string, blank: char -> bool): (r: string)
    ensures r != "" ==> !blank(r[0]) && !blank(r[|r| - 1])
  {
    StripRight(StripLeft(s, blank), blank)
  }

  /** What str.strip takes for white space. */
  predicate PySpace(c: char)
  {
    IsSpace(c) || '\U{1C}' <= c <= '\U{1F}'
  }

  /** html.escape(quote=False). */
  function HtmlEscape(s: string): string
  {
    Replace(Replace(Replace(s, '&', "&amp;"), '<', "&lt;"), '>', "&gt;")
  }

  function EscapeTail(s: string): string
  {
    Replace(Replace(Replace(s, '\\', "\\\\"), '|', "\\|"), '\n', "&#10;")
  }

  function Escape(s: string): string
  {
    EscapeTail(HtmlEscape(s))
  }

  /** None for a missing value, else its text. */
  function EncodeCell(value: Option<string>): string
  {
    var text := if value.None? then "" else Strip(value.value, PySpace);
    Escape(Replace(ReplaceCRLF(text), '\r', "\n"))
  }

  function EncodeRow(row: seq<Option<string>>): (cells: seq<string>)
    ensures |cells| == |row| && forall k | 0 <= k < |row| :: cells[k] == EncodeCell(row[k])
  {
    if row == [] then [] else [EncodeCell(row[0])] + EncodeRow(row[1..])
  }

  predicate AnyText(row: seq<string>)
  {
    exists k | 0 <= k < |row| :: row[k] != ""
  }

  /** The encoded rows that say something. */
  function EncodeRows(rows: seq<seq<Option<string>>>): (cleaned: seq<seq<string>>)
    ensures forall k | 0 <= k < |cleaned| :: cleaned[k] != []
  {
    if rows == [] then []
    else (if AnyText(EncodeRow(rows[0])) then [EncodeRow(rows[0])] else []) + EncodeRows(rows[1..])
  }

  /** The length of the longest row. */
  function Width(rows: seq<seq<string>>): (w: nat)
    ensures forall k | 0 <= k < |rows| :: |rows[k]| <= w
  {
    if rows == [] then 0
    else
      var rest := Width(rows[1..]);
      if |rows[0]| >= rest then |rows[0]| else rest
  }

  function Repeat(cell: string, n: nat): (row: seq<string>)
    ensures |row| == n && forall k | 0 <= k < n :: row[k] == cell
  {
    seq(n, k => cell)
  }

  function Pad(row: seq<string>, width: nat): (padded: seq<string>)
    requires |row| <= width
    ensures |padded| == width
  {
    row + Repeat("", width - |row|)
  }

  function PadAll(rows: seq<seq<string>>, width: nat): (padded: seq<seq<string>>)
    requires forall k | 0 <= k < |rows| :: |rows[k]| <= width
    ensures |padded| == |rows| && forall k | 0 <= k < |rows| :: padded[k] == Pad(rows[k], width)
  {
    seq(|rows|, k requires 0 <= k < |rows| => Pad(rows[k], width))
  }

  function RowLine(row: seq<string>): string
  {
    "| " + Join(row, " | ") + " |"
  }

  function RowLines(rows: seq<seq<string>>): (lines: seq<string>)
    ensures |lines| == |rows| && forall k | 0 <= k < |rows| :: lines[k] == RowLine(rows[k])
  {
    seq(|rows|, k requires 0 <= k < |rows| => RowLine(rows[k]))
  }

  function Serialize(rows: seq<seq<Option<string>>>): string
  {
    var cleaned := EncodeRows(rows);
    if cleaned == [] then ""
    else
      var width := Width(cleaned);
      var normalized := PadAll(cleaned, width);
      var header := normalized[0];
      var body := if |normalized| > 1 then normalized[1..] else [Repeat("", width)];
      var lines := [RowLine(header), RowLine(Repeat("---", width))] + RowLines(body);
      Join(lines, "\n")
  }

  // ----- A reader: GFM 4.10, 6.1 and 6.2 -----

  /** Cuts at every pipe that no backslash escapes. */
  function SplitCells(s: string): (cells: seq<string>)
    ensures cells != []
  {
    if s == "" then [""]
    else if s[0] == '|' then [""] + SplitCells(s[1..])
    else
      var n := if s[0] == '\\' && |s| > 1 then 2 else 1;
      Front(s[..n], SplitCells(s[n..]))
  }

  predicate GfmBlank(c: char) { c == ' ' || c == '\t' }

  /** The cells between the outer pipes, trimmed. */
  function RowCells(line: string): seq<string>
  {
    var cells := SplitCells(line);
    if |cells| < 2 then [] else Trimmed(cells[1..|cells| - 1])
  }

  function Trimmed(cells: seq<string>): (r: seq<string>)
    ensures |r| == |cells| && forall k | 0 <= k < |cells| :: r[k] == Strip(cells[k], GfmBlank)
  {
    seq(|cells|, k requires 0 <= k < |cells| => Strip(cells[k], GfmBlank))
  }

  predicate AsciiPunctuation(c: char)
  {
    '!' <= c <= '/' || ':' <= c <= '@' || '[' <= c <= '`' || '{' <= c <= '~'
  }

  /** The character an entity at the front stands for, and its length. */
  function Entity(s: string): (r: Option<(char, nat)>)
    ensures r.Some? ==> 0 < r.value.1 <= |s|
  {
    if "&amp;" <= s then Some(('&', 5))
    else if "&lt;" <= s then Some(('<', 4))
    else if "&gt;" <= s then Some(('>', 4))
    else if "&#10;" <= s then Some(('\n', 5))
    else None
  }

  /** Undoes backslash escapes and entities, left to right. */
  function Inline(s: string): string
  {
    if s == "" then ""
    else if |s| > 1 && s[0] == '\\' && AsciiPunctuation(s[1]) then [s[1]] + Inline(s[2..])
    else
      var e := Entity(s);
      if e.Some? then [e.value.0] + Inline(s[e.value.1..]) else [s[0]] + Inline(s[1..])
  }

  function Inlines(cells: seq<string>): (r: seq<string>)
    ensures |r| == |cells| && forall k | 0 <= k < |cells| :: r[k] == Inline(cells[k])
  {
    seq(|cells|, k requires 0 <= k < |cells| => Inline(cells[k]))
  }

  /** Rows may be shorter or longer than the header. */
  function Fit(row: seq<string>, width: nat): seq<string>
  {
    if |row| <= width then Pad(row, width) else row[..width]
  }

  function ReadRow(line: string): seq<string>
  {
    Inlines(RowCells(line))
  }

  function ReadRows(lines: seq<string>, width: nat): (rows: seq<seq<string>>)
    ensures |rows| == |lines| && forall k | 0 <= k < |lines| :: rows[k] == Fit(ReadRow(lines[k]), width)
  {
    seq(|lines|, k requires 0 <= k < |lines| => Fit(ReadRow(lines[k]), width))
  }

  predicate DelimiterRow(line: string, width: nat)
  {
    && |RowCells(line)| == width
    && forall k | 0 <= k < width :: RowCells(line)[k] != "" && forall j | 0 <= j < |RowCells(line)[k]| ::
      RowCells(line)[k][j] in ":-"
  }

  function Read(s: string): Option<seq<seq<string>>>
  {
    var lines := SplitLines(s);
    if s == "" then Some([])
    else if |lines| < 2 then None
    else
      var header := ReadRow(lines[0]);
      if DelimiterRow(lines[1], |header|) then Some([header] + ReadRows(lines[2..], |header|)) else None
  }

  // ----- The escapes work character by character -----

  function EncodeChar(c: char): (e: string)
    ensures e != ""
  {
    if c == '&' then "&amp;"
    else if c == '<' then "&lt;"
    else if c == '>' then "&gt;"
    else if c == '\\' then "\\\\"
    else if c == '|' then "\\|"
    else if c == '\n' then "&#10;"
    else [c]
  }

  function EncodeAll(s: string): string
  {
    if s == "" then "" else EncodeChar(s[0]) + EncodeAll(s[1..])
  }

  lemma {:induction false} ReplaceConcat(a: string, b: string, c: char, new': string)
    ensures Replace(a + b, c, new') == Replace(a, c, new') + Replace(b, c, new')
  {
    if a == "" {
      assert a + b == b;
    } else {
      ReplaceConcat(a[1..], b, c, new');
      assert (a + b)[1..] == a[1..] + b && (a + b)[0] == a[0];
      Assoc(if a[0] == c then new' else [a[0]], Replace(a[1..], c, new'), Replace(b, c, new'));
    }
  }

  lemma {:induction false} ReplaceAbsent(s: string, c: char, new': string)
    requires forall k | 0 <= k < |s| :: s[k] != c
    ensures Replace(s, c, new') == s
  {
    if s != "" {
      ReplaceAbsent(s[1..], c, new');
    }
  }

  lemma {:induction false} ReplaceOne(c: char, old': char, new': string)
    ensures Replace([c], old', new') == if c == old' then new' else [c]
  {
    assert [c][1..] == "";
    assert Replace("", old', new') == "";
  }

  lemma {:induction false} EscapeConcat(a: string, b: string)
    ensures Escape(a + b) == Escape(a) + Escape(b)
  {
    hide Replace;
    ReplaceConcat(a, b, '&', "&amp;");
    var a1, b1 := Replace(a, '&', "&amp;"), Replace(b, '&', "&amp;");
    ReplaceConcat(a1, b1, '<', "&lt;");
    var a2, b2 := Replace(a1, '<', "&lt;"), Replace(b1, '<', "&lt;");
    ReplaceConcat(a2, b2, '>', "&gt;");
    EscapeTailConcat(HtmlEscape(a), HtmlEscape(b));
  }

  lemma {:induction false} EscapeTailConcat(a: string, b: string)
    ensures EscapeTail(a + b) == EscapeTail(a) + EscapeTail(b)
  {
    hide Replace;
    ReplaceConcat(a, b, '\\', "\\\\");
    var a1, b1 := Replace(a, '\\', "\\\\"), Replace(b, '\\', "\\\\");
    ReplaceConcat(a1, b1, '|', "\\|");
    ReplaceConcat(Replace(a1, '|', "\\|"), Replace(b1, '|', "\\|"), '\n', "&#10;");
  }

  lemma {:induction false} HtmlEscapeOne(c: char)
    ensures HtmlEscape([c]) == if c == '&' || c == '<' || c == '>' then EncodeChar(c) else [c]
  {
    hide Replace;
    ReplaceOne(c, '&', "&amp;");
    if c == '&' {
      ReplaceAbsent("&amp;", '<', "&lt;");
      ReplaceAbsent("&amp;", '>', "&gt;");
    } else {
      ReplaceOne(c, '<', "&lt;");
      if c == '<' {
        ReplaceAbsent("&lt;", '>', "&gt;");
      } else {
        ReplaceOne(c, '>', "&gt;");
      }
    }
  }

  lemma {:induction false} EscapeTailOne(c: char)
    requires c != '&' && c != '<' && c != '>'
    ensures EscapeTail([c]) == EncodeChar(c)
  {
    hide Replace;
    ReplaceOne(c, '\\', "\\\\");
    if c == '\\' {
      ReplaceAbsent("\\\\", '|', "\\|");
      ReplaceAbsent("\\\\", '\n', "&#10;");
    } else {
      ReplaceOne(c, '|', "\\|");
      if c == '|' {
        ReplaceAbsent("\\|", '\n', "&#10;");
      } else {
        ReplaceOne(c, '\n', "&#10;");
      }
    }
  }

  lemma {:induction false} EscapeTailPlain(s: string)
    requires forall k | 0 <= k < |s| :: s[k] != '\\' && s[k] != '|' && s[k] != '\n'
    ensures EscapeTail(s) == s
  {
    ReplaceAbsent(s, '\\', "\\\\");
    ReplaceAbsent(s, '|', "\\|");
    ReplaceAbsent(s, '\n', "&#10;");
  }

  lemma {:induction false} EscapeOne(c: char)
    ensures Escape([c]) == EncodeChar(c)
  {
    hide HtmlEscape, EscapeTail;
    HtmlEscapeOne(c);
    if c == '&' || c == '<' || c == '>' {
      EscapeTailPlain(EncodeChar(c));
    } else {
      EscapeTailOne(c);
    }
  }

  /** The six replacements in a row are one substitution for each character. */
  lemma {:induction false} EscapeIsPerCharacter(s: string)
    ensures Escape(s) == EncodeAll(s)
  {
    hide Escape, EncodeChar;
    if s == "" {
      EscapeEmpty();
    } else {
      EscapeIsPerCharacter(s[1..]);
      assert s == [s[0]] + s[1..];
      EscapeConcat([s[0]], s[1..]);
      EscapeOne(s[0]);
    }
  }

  lemma {:induction false} EscapeEmpty()
    ensures Escape("") == ""
  {
  }

  /** Line breaks of every convention as single newlines. */
  function Newlines(s: string): string
  {
    if s == "" then ""
    else if s[0] == '\r' then "\n" + Newlines(if |s| > 1 && s[1] == '\n' then s[2..] else s[1..])
    else [s[0]] + Newlines(s[1..])
  }

  lemma {:induction false} NewlinesInTwoSteps(s: string)
    ensures Replace(ReplaceCRLF(s), '\r', "\n") == Newlines(s)
  {
    if s == "" {
    } else if |s| >= 2 && s[0] == '\r' && s[1] == '\n' {
      NewlinesInTwoSteps(s[2..]);
      ReplaceFirst("\n", ReplaceCRLF(s[2..]));
    } else {
      NewlinesInTwoSteps(s[1..]);
      ReplaceFirst([s[0]], ReplaceCRLF(s[1..]));
    }
  }

  lemma {:induction false} ReplaceFirst(first: string, rest: string)
    requires |first| == 1
    ensures Replace(first + rest, '\r', "\n") == (if first[0] == '\r' then "\n" else first) + Replace(rest, '\r', "\n")
  {
    hide Replace;
    ReplaceConcat(first, rest, '\r', "\n");
    assert first == [first[0]];
    ReplaceOne(first[0], '\r', "\n");
  }

  /** What a cell says: its text without outer white space. */
  function Clean(value: Option<string>): string
  {
    if value.None? then "" else Newlines(Strip(value.value, PySpace))
  }

  lemma {:induction false} EncodeCellIs(value: Option<string>)
    ensures EncodeCell(value) == EncodeAll(Clean(value))
  {
    hide Escape, Strip;
    var text := if value.None? then "" else Strip(value.value, PySpace);
    NewlinesInTwoSteps(text);
    assert Newlines("") == "";
    EscapeIsPerCharacter(Newlines(text));
  }

  /** Nothing a reader would trim at either end. */
  predicate Neat(s: string)
  {
    s == "" || (!GfmBlank(s[0]) && !GfmBlank(s[|s| - 1]))
  }

  lemma {:induction false} NewlinesEnds(s: string)
    requires s != "" && !PySpace(s[|s| - 1])
    ensures Newlines(s) != "" && Newlines(s)[|Newlines(s)| - 1] == s[|s| - 1]
    ensures !PySpace(s[0]) ==> Newlines(s)[0] == s[0]
  {
    if |s| > 1 {
      var n := if s[0] == '\r' && s[1] == '\n' then 2 else 1;
      if n < |s| {
        assert s[n..][|s| - n - 1] == s[|s| - 1];
        NewlinesEnds(s[n..]);
      }
    }
  }

  lemma {:induction false} CleanIsNeat(value: Option<string>)
    ensures Neat(Clean(value))
  {
    hide StripLeft, StripRight, Newlines;
    if value.Some? {
      var text := Strip(value.value, PySpace);
      if text != "" {
        NewlinesEnds(text);
      } else {
        NoNewlines();
      }
    }
  }

  lemma {:induction false} NoNewlines()
    ensures Newlines("") == ""
  {
  }

  // ----- Reading a cell -----

  lemma {:induction false} InlineChar(c: char, rest: string)
    ensures Inline(EncodeChar(c) + rest) == [c] + Inline(rest)
  {
    var e := EncodeChar(c);
    var s := e + rest;
    assert s[|e|..] == rest;
    assert s[..|e|] == e;
    assert |e| > 1 ==> s[0] == e[0] && s[1] == e[1];
    if c == '&' || c == '<' || c == '>' || c == '\n' {
      EntityChar(c, rest);
    }
  }

  lemma {:induction false} EntityChar(c: char, rest: string)
    requires c == '&' || c == '<' || c == '>' || c == '\n'
    ensures Entity(EncodeChar(c) + rest) == Some((c, |EncodeChar(c)|))
  {
    var s := EncodeChar(c) + rest;
    assert s[0] == '&' && s[1] == EncodeChar(c)[1];
    assert c != '&' ==> !("&amp;" <= s) by { assert "&amp;"[1] == 'a'; }
    assert c != '<' ==> !("&lt;" <= s) by { assert "&lt;"[1] == 'l'; }
    assert c != '>' ==> !("&gt;" <= s) by { assert "&gt;"[1] == 'g'; }
  }

  /** Unescaping undoes encoding. */
  lemma {:induction false} InlineAll(t: string)
    ensures Inline(EncodeAll(t)) == t
  {
    hide EncodeChar, Inline;
    if t == "" {
      InlineNothing();
    } else {
      InlineAll(t[1..]);
      InlineChar(t[0], EncodeAll(t[1..]));
      assert t == [t[0]] + t[1..];
    }
  }

  lemma {:induction false} InlineNothing()
    ensures Inline("") == ""
  {
  }

  lemma {:induction false} FrontTwice(x: string, y: string, parts: seq<string>)
    requires parts != []
    ensures Front(x, Front(y, parts)) == Front(x + y, parts)
  {
    assert x + (y + parts[0]) == (x + y) + parts[0];
  }

  lemma {:induction false} SplitPlain(p: string, rest: string)
    requires forall k | 0 <= k < |p| :: p[k] != '|' && p[k] != '\\'
    ensures SplitCells(p + rest) == Front(p, SplitCells(rest))
  {
    if p == "" {
      assert p + rest == rest && "" + SplitCells(rest)[0] == SplitCells(rest)[0];
    } else {
      SplitPlain(p[1..], rest);
      assert (p + rest)[1..] == p[1..] + rest && (p + rest)[..1] == [p[0]];
      FrontTwice([p[0]], p[1..], SplitCells(rest));
      assert [p[0]] + p[1..] == p;
    }
  }

  lemma {:induction false} SplitEscaped(c: char, rest: string)
    requires c == '|' || c == '\\'
    ensures SplitCells(['\\', c] + rest) == Front(['\\', c], SplitCells(rest))
  {
    var s := ['\\', c] + rest;
    assert s[2..] == rest && s[..2] == ['\\', c];
  }

  lemma {:induction false} SplitChar(c: char, rest: string)
    ensures SplitCells(EncodeChar(c) + rest) == Front(EncodeChar(c), SplitCells(rest))
  {
    hide SplitCells;
    if c == '|' || c == '\\' {
      assert EncodeChar(c) == ['\\', c];
      SplitEscaped(c, rest);
    } else {
      SplitPlain(EncodeChar(c), rest);
    }
  }

  /** No pipe of an encoded text ends a cell. */
  lemma {:induction false} SplitAll(t: string, rest: string)
    ensures SplitCells(EncodeAll(t) + rest) == Front(EncodeAll(t), SplitCells(rest))
  {
    hide EncodeChar, SplitCells;
    if t == "" {
      assert "" + rest == rest && "" + SplitCells(rest)[0] == SplitCells(rest)[0];
    } else {
      SplitAll(t[1..], rest);
      SplitChar(t[0], EncodeAll(t[1..]) + rest);
      assert EncodeAll(t) + rest == EncodeChar(t[0]) + (EncodeAll(t[1..]) + rest);
      FrontTwice(EncodeChar(t[0]), EncodeAll(t[1..]), SplitCells(rest));
    }
  }

  // ----- Reading a row -----

  /** The cells are encodings of the texts. */
  predicate RowEncodes(row: seq<string>, texts: seq<string>)
  {
    |row| == |texts| && forall k | 0 <= k < |row| :: row[k] == EncodeAll(texts[k]) && Neat(texts[k])
  }

  function Spaced(row: seq<string>): (r: seq<string>)
    ensures |r| == |row| && forall k | 0 <= k < |row| :: r[k] == " " + row[k] + " "
  {
    seq(|row|, k requires 0 <= k < |row| => " " + row[k] + " ")
  }

  /** A row line after its first pipe. */
  function RowRest(row: seq<string>): string
  {
    " " + Join(row, " | ") + " |"
  }

  lemma {:induction false} RowRestStep(row: seq<string>)
    requires row != []
    ensures RowRest(row) == " " + (row[0] + (" " + ("|" + if |row| == 1 then "" else RowRest(row[1..]))))
  {
    if |row| > 1 {
      Regroup(row[0], Join(row[1..], " | "));
    }
  }

  lemma {:induction false} Regroup(x: string, j: string)
    ensures " " + (x + " | " + j) + " |" == " " + (x + (" " + ("|" + (" " + j + " |"))))
  {
  }

  lemma {:induction false} SplitOneCell(t: string, rest: string)
    ensures SplitCells(" " + (EncodeAll(t) + (" " + ("|" + rest)))) == [" " + EncodeAll(t) + " "] + SplitCells(rest)
  {
    hide SplitCells, EncodeAll, Front;
    var x, after := EncodeAll(t), "|" + rest;
    SplitPlain(" ", x + (" " + after));
    SplitAll(t, " " + after);
    SplitPlain(" ", after);
    SplitPipe(rest);
    FrontTwice(x, " ", SplitCells(after));
    FrontTwice(" ", x + " ", SplitCells(after));
    FrontOfPipe(" " + (x + " "), SplitCells(rest));
    assert " " + (x + " ") == " " + x + " ";
  }

  lemma {:induction false} SplitPipe(rest: string)
    ensures SplitCells("|" + rest) == [""] + SplitCells(rest)
  {
    assert ("|" + rest)[1..] == rest;
  }

  lemma {:induction false} FrontOfPipe(x: string, parts: seq<string>)
    ensures Front(x, [""] + parts) == [x] + parts
  {
    assert ([""] + parts)[1..] == parts && x + "" == x;
  }

  lemma {:induction false} SplitRow(row: seq<string>, texts: seq<string>)
    requires row != [] && RowEncodes(row, texts)
    ensures SplitCells(RowRest(row)) == Spaced(row) + [""]
  {
    hide SplitCells, EncodeAll, Neat, RowRest;
    RowRestStep(row);
    SplitNothing();
    if |row| == 1 {
      SplitOneCell(texts[0], "");
      assert Spaced(row) == [" " + row[0] + " "];
    } else {
      SplitRow(row[1..], texts[1..]);
      SplitOneCell(texts[0], RowRest(row[1..]));
      assert Spaced(row) == [" " + row[0] + " "] + Spaced(row[1..]);
    }
  }

  lemma {:induction false} SplitNothing()
    ensures SplitCells("") == [""]
  {
  }

  lemma {:induction false} EncodeEnds(t: string)
    requires t != ""
    ensures EncodeAll(t) != ""
    ensures !GfmBlank(t[0]) ==> !GfmBlank(EncodeAll(t)[0])
    ensures !GfmBlank(t[|t| - 1]) ==> !GfmBlank(EncodeAll(t)[|EncodeAll(t)| - 1])
  {
    CharEnds(t[0]);
    if |t| > 1 {
      hide EncodeChar, GfmBlank;
      EncodeEnds(t[1..]);
    } else {
      assert EncodeAll(t[1..]) == "";
    }
  }

  lemma {:induction false} CharEnds(c: char)
    ensures !GfmBlank(c) ==> !GfmBlank(EncodeChar(c)[0]) && !GfmBlank(EncodeChar(c)[|EncodeChar(c)| - 1])
  {
  }

  lemma {:induction false} StripSpaced(x: string)
    requires Neat(x)
    ensures Strip(" " + x + " ", GfmBlank) == x
  {
    var s := " " + x + " ";
    assert s[1..] == x + " ";
    if x == "" {
      assert s[1..][1..] == "";
    } else {
      assert StripLeft(s, GfmBlank) == x + " ";
      assert (x + " ")[..|x + " "| - 1] == x;
      assert StripRight(x, GfmBlank) == x;
    }
  }

  /** A reader gets back the texts the row was written from. */
  lemma {:induction false} RowReadsBack(row: seq<string>, texts: seq<string>)
    requires row != [] && RowEncodes(row, texts)
    ensures RowCells(RowLine(row)) == row && ReadRow(RowLine(row)) == texts
  {
    hide SplitCells, EncodeAll, Strip, Neat, Inline;
    RowLineIs(row);
    SplitPipe(RowRest(row));
    SplitRow(row, texts);
    var cells := [""] + (Spaced(row) + [""]);
    assert cells[1..|cells| - 1] == Spaced(row);
    forall k | 0 <= k < |row| ensures Trimmed(Spaced(row))[k] == row[k] && Inline(row[k]) == texts[k] {
      CellReadsBack(texts[k]);
    }
  }

  lemma {:induction false} RowLineIs(row: seq<string>)
    ensures RowLine(row) == "|" + RowRest(row)
  {
    var j := Join(row, " | ");
    assert "| " + j + " |" == "|" + (" " + j + " |");
  }

  lemma {:induction false} CellReadsBack(t: string)
    requires Neat(t)
    ensures Strip(" " + EncodeAll(t) + " ", GfmBlank) == EncodeAll(t) && Inline(EncodeAll(t)) == t
  {
    hide Strip, Inline;
    InlineAll(t);
    if t != "" {
      EncodeEnds(t);
    }
    StripSpaced(EncodeAll(t));
  }

  // ----- Reading the lines -----

  predicate OneLine(s: string) { forall k | 0 <= k < |s| :: s[k] != '\n' }

  lemma {:induction false} EncodeOneLine(t: string)
    ensures OneLine(EncodeAll(t))
  {
    if t != "" {
      EncodeOneLine(t[1..]);
    }
  }

  lemma {:induction false} RowOneLine(row: seq<string>, texts: seq<string>)
    requires RowEncodes(row, texts)
    ensures OneLine(Join(row, " | ")) && OneLine(RowLine(row))
  {
    hide EncodeAll;
    if row != [] {
      EncodeOneLine(texts[0]);
      RowOneLine(row[1..], texts[1..]);
    }
  }

  lemma {:induction false} SplitLine(x: string, rest: string)
    requires OneLine(x)
    ensures SplitLines(x) == [x]
    ensures SplitLines(x + "\n" + rest) == [x] + SplitLines(rest)
  {
    if x == "" {
      assert (x + "\n" + rest)[1..] == rest;
    } else {
      SplitLine(x[1..], rest);
      assert (x + "\n" + rest)[1..] == x[1..] + "\n" + rest;
      FrontOfLine(x, SplitLines(rest));
    }
  }

  lemma {:induction false} FrontOfLine(x: string, parts: seq<string>)
    requires x != ""
    ensures Front([x[0]], [x[1..]] + parts) == [x] + parts
    ensures Front([x[0]], [x[1..]]) == [x]
  {
    assert [x[0]] + x[1..] == x;
    assert ([x[1..]] + parts)[1..] == parts;
  }

  lemma {:induction false} SplitJoined(lines: seq<string>)
    requires lines != [] && forall k | 0 <= k < |lines| :: OneLine(lines[k])
    ensures SplitLines(Join(lines, "\n")) == lines
  {
    hide SplitLines, OneLine;
    if |lines| > 1 {
      SplitJoined(lines[1..]);
      SplitLine(lines[0], Join(lines[1..], "\n"));
    } else {
      SplitLine(lines[0], "");
    }
  }

  // ----- The round trip -----

  function CleanRow(row: seq<Option<string>>): (texts: seq<string>)
    ensures |texts| == |row| && forall k | 0 <= k < |row| :: texts[k] == Clean(row[k])
  {
    if row == [] then [] else [Clean(row[0])] + CleanRow(row[1..])
  }

  function CleanRows(rows: seq<seq<Option<string>>>): (texts: seq<seq<string>>)
    ensures forall k | 0 <= k < |texts| :: texts[k] != []
  {
    if rows == [] then []
    else (if AnyText(CleanRow(rows[0])) then [CleanRow(rows[0])] else []) + CleanRows(rows[1..])
  }

  /** The table meant: the rows that say something, padded to one width, under
      a header; a table needs a body row, so a lone row gets a blank one. */
  function Table(rows: seq<seq<Option<string>>>): seq<seq<string>>
  {
    var texts := CleanRows(rows);
    if texts == [] then []
    else
      var padded := PadAll(texts, Width(texts));
      if |padded| > 1 then padded else padded + [Repeat("", Width(texts))]
  }

  predicate RowsEncode(rows: seq<seq<string>>, texts: seq<seq<string>>)
  {
    |rows| == |texts| && forall k | 0 <= k < |rows| :: RowEncodes(rows[k], texts[k])
  }

  lemma {:induction false} EncodedRow(row: seq<Option<string>>)
    ensures RowEncodes(EncodeRow(row), CleanRow(row))
    ensures AnyText(EncodeRow(row)) <==> AnyText(CleanRow(row))
  {
    hide EncodeAll, EncodeCell, Clean, Neat;
    var e, t := EncodeRow(row), CleanRow(row);
    forall k | 0 <= k < |row| ensures e[k] == EncodeAll(t[k]) && Neat(t[k]) && (e[k] == "" <==> t[k] == "") {
      EncodeCellIs(row[k]);
      CleanIsNeat(row[k]);
      BlankEncodesBlank(t[k]);
    }
  }

  lemma {:induction false} BlankEncodesBlank(t: string)
    ensures EncodeAll(t) == "" <==> t == ""
  {
  }

  lemma {:induction false} EncodedRows(rows: seq<seq<Option<string>>>)
    ensures RowsEncode(EncodeRows(rows), CleanRows(rows))
  {
    hide EncodeRow, CleanRow, RowEncodes, AnyText;
    if rows != [] {
      EncodedRow(rows[0]);
      EncodedRows(rows[1..]);
    }
  }

  lemma {:induction false} SameWidth(rows: seq<seq<string>>, texts: seq<seq<string>>)
    requires RowsEncode(rows, texts)
    ensures Width(rows) == Width(texts)
  {
    hide EncodeAll, Neat;
    if rows != [] {
      SameWidth(rows[1..], texts[1..]);
      assert RowEncodes(rows[0], texts[0]);
    }
  }

  lemma {:induction false} PaddedEncodes(row: seq<string>, texts: seq<string>, width: nat)
    requires RowEncodes(row, texts) && |row| <= width
    ensures RowEncodes(Pad(row, width), Pad(texts, width))
  {
    hide EncodeAll;
    BlankEncodesBlank("");
  }

  lemma {:induction false} PaddedAllEncode(rows: seq<seq<string>>, texts: seq<seq<string>>, width: nat)
    requires RowsEncode(rows, texts) && forall k | 0 <= k < |rows| :: |rows[k]| <= width
    requires forall k | 0 <= k < |texts| :: |texts[k]| <= width
    ensures RowsEncode(PadAll(rows, width), PadAll(texts, width))
  {
    hide RowEncodes, Pad;
    forall k | 0 <= k < |rows| ensures RowEncodes(PadAll(rows, width)[k], PadAll(texts, width)[k]) {
      PaddedEncodes(rows[k], texts[k], width);
    }
  }

  /** The lines under a header, read back. */
  lemma {:induction false} RowsReadBack(rows: seq<seq<string>>, texts: seq<seq<string>>, width: nat)
    requires RowsEncode(rows, texts) && width > 0 && forall k | 0 <= k < |rows| :: |rows[k]| == width
    ensures ReadRows(RowLines(rows), width) == texts
    ensures forall k | 0 <= k < |rows| :: OneLine(RowLines(rows)[k])
  {
    hide RowEncodes, ReadRow, RowLine, OneLine;
    forall k | 0 <= k < |rows| ensures ReadRows(RowLines(rows), width)[k] == texts[k] && OneLine(RowLines(rows)[k]) {
      RowReadsBack(rows[k], texts[k]);
      RowOneLine(rows[k], texts[k]);
      FitFits(texts[k], width);
      SameLength(rows[k], texts[k]);
    }
  }

  lemma {:induction false} SameLength(row: seq<string>, texts: seq<string>)
    requires RowEncodes(row, texts)
    ensures |row| == |texts|
  {
  }

  lemma {:induction false} FitFits(row: seq<string>, width: nat)
    ensures |row| == width ==> Fit(row, width) == row
  {
  }

  lemma {:induction false} DelimiterReadsBack(width: nat)
    requires width > 0
    ensures DelimiterRow(RowLine(Repeat("---", width)), width) && OneLine(RowLine(Repeat("---", width)))
  {
    hide RowCells, RowLine, RowEncodes;
    DashesEncode(width);
    RowReadsBack(Repeat("---", width), Repeat("---", width));
    RowOneLine(Repeat("---", width), Repeat("---", width));
  }

  lemma {:induction false} DashesEncode(width: nat)
    ensures RowEncodes(Repeat("---", width), Repeat("---", width))
  {
    assert EncodeAll("") == "" && EncodeAll("-") == "-" && EncodeAll("--") == "--" && EncodeAll("---") == "---" by {
      assert "-"[1..] == "" && "--"[1..] == "-" && "---"[1..] == "--";
    }
  }

  /** The lines of a table whose rows all have one width. */
  function TableLines(rows: seq<seq<string>>, width: nat): seq<string>
    requires rows != []
  {
    [RowLine(rows[0]), RowLine(Repeat("---", width))] + RowLines(rows[1..])
  }

  lemma {:induction false} LinesReadBack(rows: seq<seq<string>>, texts: seq<seq<string>>, width: nat)
    requires RowsEncode(rows, texts) && rows != [] && width > 0
    requires forall k | 0 <= k < |rows| :: |rows[k]| == width
    ensures Read(Join(TableLines(rows, width), "\n")) == Some(texts)
  {
    hide RowEncodes, RowLine, ReadRow, OneLine, DelimiterRow, SplitLines, Join;
    var lines := TableLines(rows, width);
    RowReadsBack(rows[0], texts[0]);
    RowOneLine(rows[0], texts[0]);
    SameLength(rows[0], texts[0]);
    DelimiterReadsBack(width);
    RowsReadBack(rows[1..], texts[1..], width);
    SplitJoined(lines);
    SplitNoLines();
    assert lines[2..] == RowLines(rows[1..]);
    assert [texts[0]] + texts[1..] == texts;
  }

  lemma {:induction false} SplitNoLines()
    ensures SplitLines("") == [""]
  {
  }

  /** The rows as they are laid out: padded, and at least two. */
  function Laid(rows: seq<seq<string>>): (r: seq<seq<string>>)
    requires rows != []
    ensures |r| >= 2 && forall k | 0 <= k < |r| :: |r[k]| == Width(rows)
  {
    var padded := PadAll(rows, Width(rows));
    if |padded| > 1 then padded else padded + [Repeat("", Width(rows))]
  }

  lemma {:induction false} LaidEncodes(rows: seq<seq<string>>, texts: seq<seq<string>>)
    requires RowsEncode(rows, texts) && rows != []
    ensures RowsEncode(Laid(rows), Laid(texts))
  {
    hide RowEncodes;
    SameWidth(rows, texts);
    PaddedAllEncode(rows, texts, Width(rows));
    BlankRowEncodes(Width(rows));
  }

  lemma {:induction false} BlankRowEncodes(width: nat)
    ensures RowEncodes(Repeat("", width), Repeat("", width))
  {
    BlankEncodesBlank("");
  }

  lemma {:induction false} SerializeIs(rows: seq<seq<Option<string>>>)
    ensures var cleaned := EncodeRows(rows);
            Serialize(rows) == if cleaned == [] then "" else Join(TableLines(Laid(cleaned), Width(cleaned)), "\n")
  {
    hide RowLine, Join, EncodeRows, Width;
    var cleaned := EncodeRows(rows);
    if cleaned != [] {
      var padded := PadAll(cleaned, Width(cleaned));
      var blank := [Repeat("", Width(cleaned))];
      assert |padded| == 1 ==> (padded + blank)[1..] == blank;
    }
  }

  /** Reading what was written gives back the table that was meant, for any
      rows and any text in their cells. */
  lemma {:induction false} RoundTrip(rows: seq<seq<Option<string>>>)
    ensures Read(Serialize(rows)) == Some(Table(rows))
  {
    hide EncodeRows, CleanRows, RowEncodes, Read, Serialize, Join, TableLines, Width;
    SerializeIs(rows);
    EncodedRows(rows);
    var cleaned, texts := EncodeRows(rows), CleanRows(rows);
    if cleaned == [] {
      ReadNothing();
    } else {
      LaidEncodes(cleaned, texts);
      assert Laid(texts) == Table(rows);
      assert |cleaned[0]| <= Width(cleaned);
      LinesReadBack(Laid(cleaned), Laid(texts), Width(cleaned));
    }
  }

  lemma {:induction false} ReadNothing()
    ensures Read("") == Some([])
  {
  }

  /** The width is that of the longest row. */
  lemma {:induction false} WidthIsReached(rows: seq<seq<string>>) returns (k: nat)
    requires rows != []
    ensures k < |rows| && |rows[k]| == Width(rows)
  {
    k := 0;
    if |rows| > 1 && |rows[0]| < Width(rows[1..]) {
      k := WidthIsReached(rows[1..]);
      k := k + 1;
    }
  }
}
