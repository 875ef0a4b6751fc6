/** Text as the server sees it: sequences of Unicode scalar values, with the
    UTF-8 byte length the token estimator works on. */
module Text {

  datatype Option<+T> = None | Some(value: T)

  function Min(a: int, b: int): int { if a < b then a else b }

  function Max(a: int, b: int): int { if a > b then a else b }

  /** Bytes one scalar value takes in UTF-8. */
  function Utf8Len(c: char): (n: nat)
    ensures 1 <= n <= 4
  {
    var v := c as int;
    if v < 0x80 then 1 else if v < 0x800 then 2 else if v < 0x10000 then 3 else 4
  }

  /** Go's len(s). */
  function ByteLen(s: string): (n: nat)
  {
    if s == [] then 0 else ByteLen(s[..|s| - 1]) + Utf8Len(s[|s| - 1])
  }

  /** The estimator: about three bytes a token, rounded up. */
  function EstimateCharTokens(byteLen: int): (n: nat)
  {
    if byteLen <= 0 then 0 else (byteLen + 2) / 3
  }

  function EstimateTextTokens(s: string): (n: nat)
  {
    EstimateCharTokens(ByteLen(s))
  }

  lemma {:induction false} ByteLenConcat(a: string, b: string)
    ensures ByteLen(a + b) == ByteLen(a) + ByteLen(b)
  {
    if b == [] {
      assert a + b == a;
    } else {
      ByteLenConcat(a, b[..|b| - 1]);
      assert (a + b)[..|a + b| - 1] == a + b[..|b| - 1];
    }
  }

  lemma {:induction false} ByteLenBounds(s: string)
    ensures |s| <= ByteLen(s) <= 4 * |s|
  {
    if s != [] {
      ByteLenBounds(s[..|s| - 1]);
    }
  }

  predicate Ascii(s: string) { forall i | 0 <= i < |s| :: s[i] < '\U{80}' }

  lemma {:induction false} AsciiByteLen(s: string)
    requires Ascii(s)
    ensures ByteLen(s) == |s|
  {
    if s != [] {
      AsciiByteLen(s[..|s| - 1]);
    }
  }

  lemma {:induction false} ByteLenPrefix(s: string, i: nat, j: nat)
    requires i <= j <= |s|
    ensures ByteLen(s[..i]) <= ByteLen(s[..j])
    ensures i < j ==> ByteLen(s[..i]) < ByteLen(s[..j])
  {
    ByteLenConcat(s[..i], s[i..j]);
    ByteLenBounds(s[i..j]);
    assert s[..j] == s[..i] + s[i..j];
  }

  /** Rounding up is subadditive, so the parts bound the whole. */
  lemma {:induction false} TokensSubadditive(a: string, b: string)
    ensures EstimateTextTokens(a + b) <= EstimateTextTokens(a) + EstimateTextTokens(b)
    ensures EstimateTextTokens(a) <= EstimateTextTokens(a + b)
    ensures EstimateTextTokens(b) <= EstimateTextTokens(a + b)
  {
    ByteLenConcat(a, b);
  }

  /** unicode.IsSpace. */
  predicate IsSpace(c: char)
  {
    c in "\t\n \U{0B}\U{0C}\r" || c == '\U{85}' || c == '\U{A0}' || c == '\U{1680}'
    || '\U{2000}' <= c <= '\U{200A}' || c == '\U{2028}' || c == '\U{2029}'
    || c == '\U{202F}' || c == '\U{205F}' || c == '\U{3000}'
  }

  function TrimLeft(s: string): (r: string)
    ensures |r| <= |s| && r == s[|s| - |r|..]
    ensures forall i | 0 <= i < |s| - |r| :: IsSpace(s[i])
    ensures r != [] ==> !IsSpace(r[0])
  {
    if s != [] && IsSpace(s[0]) then TrimLeft(s[1..]) else s
  }

  function TrimRight(s: string): (r: string)
    ensures |r| <= |s| && r == s[..|r|]
    ensures forall i | |r| <= i < |s| :: IsSpace(s[i])
    ensures r != [] ==> !IsSpace(r[|r| - 1])
  {
    if s != [] && IsSpace(s[|s| - 1]) then TrimRight(s[..|s| - 1]) else s
  }

  /** strings.TrimSpace. */
  function TrimSpace(s: string): (r: string)
    ensures r != [] ==> !IsSpace(r[0]) && !IsSpace(r[|r| - 1])
    ensures |r| <= |s|
  {
    TrimRight(TrimLeft(s))
  }

  /** A string is blank exactly when every character is a space. */
  lemma {:induction false} TrimSpaceEmpty(s: string)
    ensures TrimSpace(s) == "" <==> forall i | 0 <= i < |s| :: IsSpace(s[i])
  {
  }

  /** Only spaces at the two ends go. */
  lemma {:induction false} TrimSpaceCutsEnds(s: string) returns (i: nat, j: nat)
    ensures i <= j <= |s| && TrimSpace(s) == s[i..j]
    ensures forall k | 0 <= k < |s| && !(i <= k < j) :: IsSpace(s[k])
  {
    hide IsSpace;
    var left := TrimLeft(s);
    i := |s| - |left|;
    j := i + |TrimRight(left)|;
    assert forall k | j <= k < |s| :: s[k] == left[k - i];
  }

  /** strings.Join. */
  function Join(parts: seq<string>, separator: string): string
  {
    if parts == [] then ""
    else if |parts| == 1 then parts[0]
    else parts[0] + separator + Join(parts[1..], separator)
  }

  /** A string cut at its newlines. */
  function SplitLines(s: string): (lines: seq<string>)
    ensures lines != []
  {
    if s == "" then [""]
    else
      var rest := SplitLines(s[1..]);
      if s[0] == '\n' then [""] + rest else Front([s[0]], rest)
  }

  function Front(x: string, parts: seq<string>): (r: seq<string>)
    requires parts != []
    ensures |r| == |parts|
  {
    [x + parts[0]] + parts[1..]
  }

  /** A text of n letters. */
  function Letters(n: nat): (s: string)
    ensures |s| == n && forall k | 0 <= k < n :: s[k] == 'x'
  {
    seq(n, k => 'x')
  }
}
