/** The texts Go's encoding/json and strconv write, as far as the sizes of the
    encoded results depend on them. */
module Json {
  import opened Sequences
  import opened Text

  function HexDigit(n: nat): char
    requires n < 16
  {
    if n < 10 then ('0' as int + n) as char else ('a' as int + (n - 10)) as char
  }

  /** One character inside a JSON string, with HTML escaping on. */
  function JsonRune(c: char): (r: string)
    ensures 1 <= |r| <= 6
  {
    if c == '"' then "\\\""
    else if c == '\\' then "\\\\"
    else if c == '\n' then "\\n"
    else if c == '\r' then "\\r"
    else if c == '\t' then "\\t"
    else if c == '\U{08}' then "\\b"
    else if c == '\U{0C}' then "\\f"
    else if c < ' ' || c == '<' || c == '>' || c == '&' then
      "\\u00" + [HexDigit(c as int / 16), HexDigit(c as int % 16)]
    else if c == '\U{2028}' then "\\u2028"
    else if c == '\U{2029}' then "\\u2029"
    else [c]
  }

  function JsonRunes(s: string): string
  {
    if s == "" then "" else JsonRunes(s[..|s| - 1]) + JsonRune(s[|s| - 1])
  }

  function JsonString(s: string): string
  {
    "\"" + JsonRunes(s) + "\""
  }

  // ----- Reading a string back -----

  function HexValue(c: char): int
  {
    if '0' <= c <= '9' then c as int - '0' as int
    else if 'a' <= c <= 'f' then c as int - 'a' as int + 10
    else 0
  }

  /** The character that a one-letter escape stands for. */
  function ShortEscape(c: char): char
  {
    if c == 'n' then '\n' else if c == 'r' then '\r' else if c == 't' then '\t'
    else if c == 'b' then '\U{08}' else if c == 'f' then '\U{0C}' else c
  }

  function CodeUnit(n: int): char { if 0 <= n < 0xD800 then n as char else '\U{FFFD}' }

  /** What a JSON reader makes of the inside of a string. */
  function ReadString(s: string): string
  {
    if s == "" then ""
    else if s[0] != '\\' || |s| == 1 then [s[0]] + ReadString(s[1..])
    else if s[1] == 'u' && |s| >= 6 then
      [CodeUnit(4096 * HexValue(s[2]) + 256 * HexValue(s[3]) + 16 * HexValue(s[4]) + HexValue(s[5]))]
      + ReadString(s[6..])
    else [ShortEscape(s[1])] + ReadString(s[2..])
  }

  /** No quote, line end or other control character is left bare. */
  predicate Escaped(s: string)
  {
    forall k | 0 <= k < |s| :: Safe(s, k)
  }

  predicate Safe(s: string, k: nat)
    requires k < |s|
  {
    s[k] >= ' ' && (s[k] == '"' ==> k > 0 && s[k - 1] == '\\')
  }

  lemma {:induction false} HexReads(n: nat)
    requires n < 16
    ensures HexValue(HexDigit(n)) == n && HexDigit(n) >= '0'
  {
  }

  lemma {:induction false} ReadRune(c: char, rest: string)
    ensures ReadString(JsonRune(c) + rest) == [c] + ReadString(rest)
  {
    var r := JsonRune(c);
    var all := r + rest;
    RuneShape(c);
    if |r| == 1 {
      assert all[1..] == rest;
    } else if |r| == 2 {
      assert all[2..] == rest;
    } else {
      assert all[6..] == rest;
      hide JsonRune, HexValue, CodeUnit;
      assert forall k | 0 <= k < 6 :: all[k] == r[k];
    }
  }

  /** A character stands for itself, or behind a backslash, or as its code. */
  lemma {:induction false} RuneShape(c: char)
    ensures var r := JsonRune(c);
            || (|r| == 1 && r[0] == c && c != '\\')
            || (|r| == 2 && r[0] == '\\' && r[1] != 'u' && ShortEscape(r[1]) == c)
            || (|r| == 6 && r[0] == '\\' && r[1] == 'u'
                && CodeUnit(4096 * HexValue(r[2]) + 256 * HexValue(r[3]) + 16 * HexValue(r[4]) + HexValue(r[5])) == c)
  {
    if |JsonRune(c)| == 6 {
      HexReads(c as int / 16 % 16);
      HexReads(c as int % 16);
    }
  }

  lemma {:induction false} RunesLast(s: string, c: char)
    ensures JsonRunes(s + [c]) == JsonRunes(s) + JsonRune(c) && JsonRunes("") == ""
  {
    hide JsonRune;
    assert (s + [c])[..|s|] == s;
  }

  lemma {:induction false} RunesFirst(s: string)
    requires s != ""
    ensures JsonRunes(s) == JsonRune(s[0]) + JsonRunes(s[1..])
  {
    hide JsonRune, JsonRunes;
    var n := |s| - 1;
    RunesLast(s[..n], s[n]);
    assert s == s[..n] + [s[n]];
    if n == 0 {
      assert s[1..] == "" && s[..0] == "" && s[0] == s[n];
      assert "" + JsonRune(s[0]) == JsonRune(s[0]) == JsonRune(s[0]) + "";
    } else {
      RunesFirst(s[..n]);
      RunesLast(s[1..n], s[n]);
      assert s[1..] == s[1..n] + [s[n]] && s[..n][1..] == s[1..n] && s[..n][0] == s[0];
      Assoc(JsonRune(s[0]), JsonRunes(s[1..n]), JsonRune(s[n]));
    }
  }

  /** Reading what is written gives the text back, whatever characters it has. */
  lemma {:induction false} StringReadsBack(s: string)
    ensures ReadString(JsonRunes(s)) == s
  {
    hide JsonRune, ReadString;
    if s == "" {
      assert ReadString("") == "" by { ReadNothing(); }
    } else {
      RunesFirst(s);
      ReadRune(s[0], JsonRunes(s[1..]));
      StringReadsBack(s[1..]);
    }
  }

  lemma {:induction false} ReadNothing()
    ensures ReadString("") == ""
  {
  }

  lemma {:induction false} RuneIsEscaped(c: char)
    ensures Escaped(JsonRune(c))
  {
    if |JsonRune(c)| == 6 {
      HexReads(c as int / 16 % 16);
      HexReads(c as int % 16);
    }
  }

  /** Quotes are written behind a backslash, and no control character as it is. */
  lemma {:induction false} StringIsEscaped(s: string)
    ensures Escaped(JsonRunes(s))
  {
    hide JsonRune;
    if s != "" {
      StringIsEscaped(s[..|s| - 1]);
      RuneIsEscaped(s[|s| - 1]);
      EscapedConcat(JsonRunes(s[..|s| - 1]), JsonRune(s[|s| - 1]));
    }
  }

  lemma {:induction false} EscapedConcat(a: string, b: string)
    requires Escaped(a) && Escaped(b)
    ensures Escaped(a + b)
  {
    var s := a + b;
    forall k | 0 <= k < |s| ensures Safe(s, k) {
      if k < |a| {
        assert Safe(a, k);
      } else {
        assert Safe(b, k - |a|);
      }
    }
  }

  function Digit(n: nat): char
    requires n < 10
  {
    ('0' as int + n) as char
  }

  /** The decimal numeral of a natural number. */
  function DecimalNat(n: nat): (r: string)
    ensures |r| >= 1
  {
    if n < 10 then [Digit(n)] else DecimalNat(n / 10) + [Digit(n % 10)]
  }

  function Decimal(n: int): (r: string)
    ensures |r| >= 1
  {
    if n < 0 then "-" + DecimalNat(-n) else DecimalNat(n)
  }

  /** What a numeral denotes. */
  function NumeralValue(s: string): int
  {
    if s == "" then 0 else NumeralValue(s[..|s| - 1]) * 10 + (s[|s| - 1] as int - '0' as int)
  }

  predicate IsNumeral(s: string)
  {
    && s != "" && (forall i | 0 <= i < |s| :: '0' <= s[i] <= '9')
    && (|s| > 1 ==> s[0] != '0')
  }

  /** The numeral is well formed and denotes the number. */
  lemma {:induction false} DecimalNatExact(n: nat)
    ensures IsNumeral(DecimalNat(n)) && NumeralValue(DecimalNat(n)) == n
    ensures n > 0 ==> DecimalNat(n)[0] != '0'
  {
    if n >= 10 {
      DecimalNatExact(n / 10);
      var init := DecimalNat(n / 10);
      assert (init + [Digit(n % 10)])[..|init|] == init;
    }
  }

  lemma {:induction false} DigitsGrow(n: nat)
    ensures |DecimalNat(n)| <= |DecimalNat(n + 1)| <= |DecimalNat(n)| + 1
  {
    if n + 1 >= 10 {
      if n % 10 == 9 {
        assert (n + 1) / 10 == n / 10 + 1;
        if n >= 10 { DigitsGrow(n / 10); }
      } else {
        assert (n + 1) / 10 == n / 10;
      }
    }
  }

  /** A numeral never shrinks by more than its sign or one digit. */
  lemma {:induction false} DecimalGrows(n: int)
    ensures |Decimal(n)| <= |Decimal(n + 1)| + 1
  {
    assert |DecimalNat(1)| == 1;
    hide DecimalNat;
    if n >= 0 {
      DigitsGrow(n);
    } else if n < -1 {
      DigitsGrow(-n - 1);
    } else {
      DigitsGrow(0);
    }
  }

  lemma {:induction false} DecimalAscii(n: int)
    ensures ByteLen(Decimal(n)) == |Decimal(n)|
  {
    hide ByteLen;
    DecimalNatExact(if n < 0 then -n else n);
    AsciiByteLen(Decimal(n));
  }

  /** Every further character makes the encoded string longer. */
  lemma {:induction false} JsonRunesGrow(s: string, i: nat)
    requires i < |s|
    ensures ByteLen(JsonRunes(s[..i])) + 1 <= ByteLen(JsonRunes(s[..i + 1]))
  {
    assert s[..i + 1][..i] == s[..i];
    ByteLenConcat(JsonRunes(s[..i]), JsonRune(s[i]));
    ByteLenBounds(JsonRune(s[i]));
  }

  lemma {:induction false} JsonRuneBytes(c: char)
    ensures ByteLen(JsonRune(c)) <= 6
  {
    if c < ' ' || c == '<' || c == '>' || c == '&' || c == '\U{2028}' || c == '\U{2029}' || c == '"' || c == '\\' {
      AsciiByteLen(JsonRune(c));
    }
  }

  lemma {:induction false} JsonRunesBytes(s: string)
    ensures ByteLen(JsonRunes(s)) <= 6 * |s|
  {
    if s != "" {
      JsonRunesBytes(s[..|s| - 1]);
      ByteLenConcat(JsonRunes(s[..|s| - 1]), JsonRune(s[|s| - 1]));
      JsonRuneBytes(s[|s| - 1]);
    }
  }

  lemma {:induction false} JsonStringBytes(s: string)
    ensures ByteLen(JsonString(s)) == ByteLen(JsonRunes(s)) + 2
  {
    AsciiByteLen("\"");
    ByteLenConcat("\"" + JsonRunes(s), "\"");
    ByteLenConcat("\"", JsonRunes(s));
  }
}
