/** Runs of user messages merged into one, for providers that want the roles
    to alternate. */
module UserMerge {
  import opened Sequences
  import opened Text
  import opened ToolHistory

  predicate Plain(m: Message) { m.role == User && m.calls == [] }

  predicate Mergeable(p: Message, m: Message) { Plain(p) && Plain(m) }

  predicate HasMultiContent(m: Message) { m.userParts != [] || m.legacyParts != [] }

  function IndexOf(s: string, c: char): (n: nat)
    ensures n <= |s| && (forall k | 0 <= k < n :: s[k] != c) && (n < |s| ==> s[n] == c)
  {
    if s == [] || s[0] == c then 0 else 1 + IndexOf(s[1..], c)
  }

  /** data:<mime>[;base64],<payload> */
  function SplitDataURL(value: string): Option<(string, string)>
  {
    var comma := IndexOf(value, ',');
    if !("data:" <= value) || comma == |value| then None
    else
      var meta := value[5..comma];
      Some((value[comma + 1..], if |meta| >= 7 && meta[|meta| - 7..] == ";base64" then meta[..|meta| - 7] else meta))
  }

  function ConvertImage(part: LegacyPart): Part
    requires part.LegacyImage?
  {
    if part.uri != "" then ImagePart(part.mime, part.detail, Some(part.uri), None)
    else if part.url == "" then ImagePart(part.mime, part.detail, None, None)
    else
      var data := SplitDataURL(part.url);
      if data.None? then ImagePart(part.mime, part.detail, Some(part.url), None)
      else ImagePart(if part.mime == "" then data.value.1 else part.mime, part.detail, None, Some(data.value.0))
  }

  function Convert(parts: seq<LegacyPart>): seq<Part>
  {
    if parts == [] then []
    else
      var last := parts[|parts| - 1];
      Convert(parts[..|parts| - 1])
      + if last.LegacyText? then [TextPart(last.text)] else if last.LegacyImage? then [ConvertImage(last)] else []
  }

  method LegacyChatPartsToUserInputParts(parts: seq<LegacyPart>) returns (out: seq<Part>)
    ensures out == Convert(parts)
  {
    out := [];
    for k := 0 to |parts|
      invariant out == Convert(parts[..k])
    {
      assert parts[..k + 1][..k] == parts[..k];
      match parts[k] {
        case LegacyText(text) => out := out + [TextPart(text)];
        case LegacyImage(_, _, _, _) => out := out + [ConvertImage(parts[k])];
        case LegacyOther =>
      }
    }
    assert parts[..|parts|] == parts;
  }

  /** What a user message says, as a list of parts. */
  function Parts(m: Message): seq<Part>
  {
    if m.userParts != [] then m.userParts
    else if m.legacyParts != [] then Convert(m.legacyParts)
    else if TrimSpace(m.content) != "" then [TextPart(m.content)]
    else []
  }

  /** The parts, which say all of the message exactly if it is whole. */
  method UserMessageParts(m: Message) returns (parts: seq<Part>)
    ensures parts == Parts(m)
    ensures PartAtoms(parts) == Said(m) <==> Whole(m)
  {
    PartsSayWholeMessages(m);
    hide Said, Whole, PartAtoms, TrimSpace, Convert;
    if m.userParts != [] {
      return m.userParts;
    }
    if m.legacyParts != [] {
      parts := LegacyChatPartsToUserInputParts(m.legacyParts);
      return parts;
    }
    if TrimSpace(m.content) != "" {
      return [TextPart(m.content)];
    }
    return [];
  }

  function JoinText(p: string, m: string): string
  {
    if p == "" then m else if m == "" then p else p + "\n\n" + m
  }

  function Join(p: Message, m: Message): Message
  {
    if !HasMultiContent(m) && !HasMultiContent(p) then p.(content := JoinText(p.content, m.content))
    else p.(userParts := Parts(p) + Parts(m), legacyParts := [], content := "")
  }

  function Attach(out: seq<Message>, m: Message): seq<Message>
  {
    var n := |out| - 1;
    if out != [] && Mergeable(out[n], m) then out[..n] + [Join(out[n], m)] else out + [m]
  }

  function Merge(ms: seq<Message>): seq<Message>
  {
    if ms == [] then [] else Attach(Merge(ms[..|ms| - 1]), ms[|ms| - 1])
  }

  // ----- The loop, editing messages in place -----

  class MessageRef {
    var message: Message

    constructor (message: Message)
      ensures this.message == message
    {
      this.message := message;
    }
  }

  function Messages(refs: seq<MessageRef>): (ms: seq<Message>)
    reads set k | 0 <= k < |refs| :: refs[k]
    ensures |ms| == |refs| && forall k | 0 <= k < |refs| :: ms[k] == refs[k].message
  {
    if refs == [] then [] else Messages(refs[..|refs| - 1]) + [refs[|refs| - 1].message]
  }

  ghost predicate Distinct(refs: seq<MessageRef>)
  {
    forall j, k | 0 <= j < k < |refs| :: refs[j] != refs[k]
  }

  /** Writes the joined message over the earlier of the two. */
  method JoinInto(prev: MessageRef, m: MessageRef)
    requires prev != m
    modifies prev
    ensures prev.message == Join(old(prev.message), old(m.message))
  {
    if !HasMultiContent(m.message) && !HasMultiContent(prev.message) {
      if prev.message.content == "" {
        prev.message := prev.message.(content := m.message.content);
      } else if m.message.content != "" {
        prev.message := prev.message.(content := prev.message.content + "\n\n" + m.message.content);
      }
      return;
    }
    var earlier := UserMessageParts(prev.message);
    var later := UserMessageParts(m.message);
    prev.message := prev.message.(userParts := earlier + later);
    prev.message := prev.message.(legacyParts := []);
    prev.message := prev.message.(content := "");
  }

  /** Positions in increasing order, and what stands at them. */
  ghost predicate Selects(kept: seq<nat>, messages: seq<MessageRef>, merged: seq<MessageRef>)
  {
    && |kept| == |merged|
    && (forall j | 0 <= j < |kept| :: kept[j] < |messages| && merged[j] == messages[kept[j]])
    && (forall j, k | 0 <= j < k < |kept| :: kept[j] < kept[k])
  }

  ghost function SelectAll(messages: seq<MessageRef>): (kept: seq<nat>)
    ensures Selects(kept, messages, messages)
  {
    seq(|messages|, i => i)
  }

  lemma {:induction false} SelectNone(messages: seq<MessageRef>)
    ensures Selects([], messages, [])
  {
  }

  lemma {:induction false} SelectsGrow(kept: seq<nat>, messages: seq<MessageRef>, merged: seq<MessageRef>, i: nat)
    requires Selects(kept, messages, merged) && i < |messages| && Distinct(messages)
    requires kept != [] ==> kept[|kept| - 1] < i
    ensures i !in kept && Distinct(merged) && forall j | 0 <= j < |merged| :: merged[j] != messages[i]
    ensures Selects(kept + [i], messages, merged + [messages[i]])
    ensures merged != [] ==> kept[|merged| - 1] < |messages| && merged[|merged| - 1] == messages[kept[|merged| - 1]]
    ensures merged != [] ==> forall k | 0 <= k < |messages| && k !in kept :: messages[k] != merged[|merged| - 1]
  {
  }

  /** One turn of the loop. */
  method AttachRef(merged: seq<MessageRef>, m: MessageRef) returns (out: seq<MessageRef>)
    requires forall j | 0 <= j < |merged| :: merged[j] != m
    requires Distinct(merged)
    modifies if merged == [] then {} else {merged[|merged| - 1]}
    ensures Messages(out) == Attach(old(Messages(merged)), old(m.message))
    ensures out == merged || (out == merged + [m] && Messages(merged) == old(Messages(merged)))
  {
    hide Join;
    var n := |merged| - 1;
    if |merged| > 0 && Mergeable(merged[n].message, m.message) {
      JoinInto(merged[n], m);
      out := merged;
    } else {
      out := merged + [m];
      assert out[..|out| - 1] == merged;
    }
  }

  /** The result holds the same objects, in order; the ones merged away are
      left as they were. */
  method MergeConsecutiveUserMessages(messages: seq<MessageRef>) returns (merged: seq<MessageRef>, ghost kept: seq<nat>)
    requires Distinct(messages)
    modifies set k | 0 <= k < |messages| :: messages[k]
    ensures Messages(merged) == Merge(old(Messages(messages)))
    ensures Selects(kept, messages, merged)
    ensures forall k | 0 <= k < |messages| && k !in kept :: messages[k].message == old(messages[k].message)
  {
    hide Merge, Attach, Messages, Selects, Distinct;
    ghost var was := Messages(messages);
    if |messages| < 2 {
      MergeShort(was);
      return messages, SelectAll(messages);
    }
    merged, kept := [], [];
    assert Selects(kept, messages, merged) by { SelectNone(messages); }
    MergeShort([]);
    for i := 0 to |messages|
      invariant Messages(merged) == Merge(was[..i])
      invariant Selects(kept, messages, merged) && (kept != [] ==> kept[|kept| - 1] < i)
      invariant forall k | 0 <= k < |messages| && k !in kept :: messages[k].message == was[k]
    {
      MergeStep(was, i);
      SelectsGrow(kept, messages, merged, i);
      ghost var before := merged;
      merged := AttachRef(merged, messages[i]);
      if merged != before {
        kept := kept + [i];
      }
    }
    assert was[..|messages|] == was;
  }

  lemma {:induction false} MergeShort(ms: seq<Message>)
    requires |ms| < 2
    ensures Merge(ms) == ms
  {
    if |ms| == 1 {
      assert ms[..0] == [];
      assert Merge([]) == [];
    }
  }

  lemma {:induction false} MergeStep(ms: seq<Message>, i: nat)
    requires i < |ms|
    ensures Merge(ms[..i + 1]) == Attach(Merge(ms[..i]), ms[i])
  {
    hide Attach;
    assert ms[..i + 1][..i] == ms[..i];
  }

  // ----- Roles alternate -----

  /** No two neighbours are left that could be merged. */
  predicate Settled(ms: seq<Message>)
  {
    forall j | 0 < j < |ms| :: !Mergeable(ms[j - 1], ms[j])
  }

  lemma {:induction false} MergeSettles(ms: seq<Message>)
    ensures Settled(Merge(ms))
  {
    hide Join;
    if ms != [] {
      MergeSettles(ms[..|ms| - 1]);
      AttachSettles(Merge(ms[..|ms| - 1]), ms[|ms| - 1]);
    }
  }

  lemma {:induction false} AttachSettles(out: seq<Message>, m: Message)
    requires Settled(out)
    ensures Settled(Attach(out, m))
  {
    if out != [] {
      JoinIsPlain(out[|out| - 1], m);
    }
  }

  lemma {:induction false} JoinIsPlain(p: Message, m: Message)
    ensures Join(p, m).role == p.role && Join(p, m).calls == p.calls
  {
  }

  lemma {:induction false} SettledStays(ms: seq<Message>)
    requires Settled(ms)
    ensures Merge(ms) == ms
  {
    if ms != [] {
      SettledStays(ms[..|ms| - 1]);
      assert |ms| > 1 ==> !Mergeable(ms[|ms| - 2], ms[|ms| - 1]);
    }
  }

  lemma {:induction false} MergeIdempotent(ms: seq<Message>)
    ensures Merge(Merge(ms)) == Merge(ms)
  {
    hide Settled, Merge;
    MergeSettles(ms);
    SettledStays(Merge(ms));
  }

  /** The last message out is the last one in, or a plain user message. */
  lemma {:induction false} LastOut(ms: seq<Message>)
    requires ms != []
    ensures Merge(ms) != []
    ensures var o, i := Merge(ms)[|Merge(ms)| - 1], ms[|ms| - 1]; o == i || (Plain(o) && Plain(i))
  {
    hide Join;
    var out := Merge(ms[..|ms| - 1]);
    if out != [] {
      JoinIsPlain(out[|out| - 1], ms[|ms| - 1]);
    }
  }

  /** Merging works on each run by itself. */
  lemma {:induction false} MergeConcat(a: seq<Message>, b: seq<Message>)
    requires a == [] || b == [] || !Mergeable(a[|a| - 1], b[0])
    ensures Merge(a + b) == Merge(a) + Merge(b)
  {
    hide Attach, Mergeable;
    if b == [] {
      assert a + b == a;
    } else if a == [] {
      assert a + b == b;
    } else {
      var n := |b| - 1;
      MergeConcat(a, b[..n]);
      assert (a + b)[..|a + b| - 1] == a + b[..n];
      assert Merge(a + b) == Attach(Merge(a + b[..n]), b[n]);
      if n == 0 {
        assert b == [b[0]] && a + b[..n] == a;
        MergeShort(b);
        LastStays(a, b[0]);
      } else {
        LastOut(b[..n]);
        AttachRight(Merge(a), Merge(b[..n]), b[n]);
      }
    }
  }

  lemma {:induction false} LastStays(a: seq<Message>, m: Message)
    requires a != [] && !Mergeable(a[|a| - 1], m)
    ensures Attach(Merge(a), m) == Merge(a) + [m]
  {
    hide Merge;
    LastOut(a);
  }

  lemma {:induction false} AttachRight(x: seq<Message>, y: seq<Message>, m: Message)
    requires y != []
    ensures Attach(x + y, m) == x + Attach(y, m)
  {
    hide Join, Mergeable;
    assert (x + y)[..|x + y| - 1] == x + y[..|y| - 1];
  }

  // ----- A run of plain text messages -----

  function NonEmpty(ms: seq<Message>): seq<string>
  {
    if ms == [] then []
    else NonEmpty(ms[..|ms| - 1]) + if ms[|ms| - 1].content == "" then [] else [ms[|ms| - 1].content]
  }

  /** strings.Join with a blank line between. */
  function BlankLineJoin(texts: seq<string>): string
  {
    if texts == [] then ""
    else if |texts| == 1 then texts[0]
    else BlankLineJoin(texts[..|texts| - 1]) + "\n\n" + texts[|texts| - 1]
  }

  lemma {:induction false} BlankLineJoinLast(texts: seq<string>, text: string)
    requires text != "" && forall k | 0 <= k < |texts| :: texts[k] != ""
    ensures BlankLineJoin(texts + [text]) == JoinText(BlankLineJoin(texts), text)
  {
    var all := texts + [text];
    assert all[..|all| - 1] == texts;
    if |texts| > 1 {
      assert |BlankLineJoin(texts)| >= |texts[|texts| - 1]| > 0;
    }
  }

  lemma {:induction false} NonEmptyTexts(ms: seq<Message>)
    ensures forall k | 0 <= k < |NonEmpty(ms)| :: NonEmpty(ms)[k] != ""
  {
    if ms != [] {
      NonEmptyTexts(ms[..|ms| - 1]);
    }
  }

  /** A run of text-only user messages becomes its first message, holding the
      non-empty texts separated by blank lines. */
  lemma {:induction false} TextRunJoins(run: seq<Message>)
    requires run != [] && forall k | 0 <= k < |run| :: Plain(run[k]) && !HasMultiContent(run[k])
    ensures Merge(run) == [run[0].(content := BlankLineJoin(NonEmpty(run)))]
  {
    var n := |run| - 1;
    var last := run[n];
    NonEmptyTexts(run[..n]);
    if n == 0 {
      MergeShort(run);
      assert NonEmpty(run[..0]) == [];
    } else {
      TextRunJoins(run[..n]);
      TextRunStep(run, n);
    }
  }

  lemma {:induction false} TextRunStep(run: seq<Message>, n: nat)
    requires n == |run| - 1 && n > 0
    requires Plain(run[0]) && !HasMultiContent(run[0]) && Plain(run[n]) && !HasMultiContent(run[n])
    requires Merge(run[..n]) == [run[0].(content := BlankLineJoin(NonEmpty(run[..n])))]
    ensures Merge(run) == [run[0].(content := BlankLineJoin(NonEmpty(run)))]
  {
    hide BlankLineJoin, Join;
    NonEmptyTexts(run[..n]);
    var text := BlankLineJoin(NonEmpty(run[..n]));
    if run[n].content != "" {
      BlankLineJoinLast(NonEmpty(run[..n]), run[n].content);
    } else {
      assert NonEmpty(run) == NonEmpty(run[..n]) && JoinText(text, "") == text;
    }
    assert BlankLineJoin(NonEmpty(run)) == JoinText(text, run[n].content);
    JoinPlainText(run[0].(content := text), run[n]);
    var out := Merge(run[..n]);
    assert out[..0] == [];
    assert Merge(run) == Attach(out, run[n]);
  }

  lemma {:induction false} JoinPlainText(p: Message, m: Message)
    requires !HasMultiContent(p) && !HasMultiContent(m)
    ensures Join(p, m) == p.(content := JoinText(p.content, m.content))
  {
  }

  // ----- Nothing that was said is lost -----

  datatype Atom = Glyph(c: char) | Picture(image: Part)

  function Glyphs(s: string): seq<Atom>
  {
    if s == [] then []
    else Glyphs(s[..|s| - 1]) + if IsSpace(s[|s| - 1]) then [] else [Glyph(s[|s| - 1])]
  }

  function PartAtoms(parts: seq<Part>): seq<Atom>
  {
    if parts == [] then []
    else
      var last := parts[|parts| - 1];
      PartAtoms(parts[..|parts| - 1]) + if last.TextPart? then Glyphs(last.text) else [Picture(last)]
  }

  /** What old parts say: their texts, and each picture as its new form. */
  function OldAtoms(parts: seq<LegacyPart>): seq<Atom>
  {
    if parts == [] then []
    else
      var last := parts[|parts| - 1];
      OldAtoms(parts[..|parts| - 1])
      + match last
        case LegacyText(text) => Glyphs(text)
        case LegacyImage(_, _, _, _) => [Picture(ConvertImage(last))]
        case LegacyOther => []
  }

  /** Converting old parts keeps what they say. */
  lemma {:induction false} ConvertSaysAll(parts: seq<LegacyPart>)
    ensures PartAtoms(Convert(parts)) == OldAtoms(parts)
  {
    hide Glyphs, ConvertImage;
    NoPartAtoms();
    if parts != [] {
      var init, last := parts[..|parts| - 1], parts[|parts| - 1];
      ConvertSaysAll(init);
      if !last.LegacyOther? {
        var one := if last.LegacyText? then TextPart(last.text) else ConvertImage(last);
        assert (Convert(init) + [one])[..|Convert(init)|] == Convert(init);
        ImageIsNoText(last);
      } else {
        assert Convert(init) + [] == Convert(init) && OldAtoms(init) + [] == OldAtoms(init);
      }
    }
  }

  lemma {:induction false} ImageIsNoText(part: LegacyPart)
    ensures part.LegacyImage? ==> ConvertImage(part).ImagePart?
  {
  }

  lemma {:induction false} ConvertConcat(a: seq<LegacyPart>, b: seq<LegacyPart>)
    ensures Convert(a + b) == Convert(a) + Convert(b)
  {
    hide ConvertImage;
    if b == [] {
      assert a + b == a;
    } else {
      var init, last := b[..|b| - 1], b[|b| - 1];
      ConvertConcat(a, init);
      assert (a + b)[..|a + b| - 1] == a + init && (a + b)[|a + b| - 1] == last;
      Assoc(Convert(a), Convert(init),
            if last.LegacyText? then [TextPart(last.text)] else if last.LegacyImage? then [ConvertImage(last)] else []);
    }
  }

  /** An old picture keeps its place, its detail and its source: its address if
      it has one, else its other address, or what that holds if it is a data
      address; the media type comes from there if the part names none. */
  lemma {:induction false} ConvertedPicture(a: seq<LegacyPart>, b: seq<LegacyPart>, mime: string, detail: string,
                                            uri: string, url: string)
    ensures uri != "" ==>
              Convert(a + [LegacyImage(mime, detail, uri, url)] + b)
              == Convert(a) + [ImagePart(mime, detail, Some(uri), None)] + Convert(b)
    ensures !("data:" <= url) || ',' !in url ==>
              Convert(a + [LegacyImage(mime, detail, "", url)] + b)
              == Convert(a) + [ImagePart(mime, detail, if url == "" then None else Some(url), None)] + Convert(b)
  {
    hide Convert;
    if !("data:" <= url) || ',' !in url {
      PlainAddress(mime, detail, url);
    }
    ConvertOne(a, LegacyImage(mime, detail, uri, url), b);
    ConvertOne(a, LegacyImage(mime, detail, "", url), b);
  }

  lemma {:induction false} PlainAddress(mime: string, detail: string, url: string)
    requires !("data:" <= url) || ',' !in url
    ensures ConvertImage(LegacyImage(mime, detail, "", url))
         == ImagePart(mime, detail, if url == "" then None else Some(url), None)
  {
    if IndexOf(url, ',') < |url| {
      assert url[IndexOf(url, ',')] == ',';
    }
  }

  lemma {:induction false} DataPicture(a: seq<LegacyPart>, b: seq<LegacyPart>, mime: string, detail: string,
                                       media: string, payload: string)
    requires ',' !in media
    ensures var url := "data:" + (media + (";base64" + ("," + payload)));
            Convert(a + [LegacyImage(mime, detail, "", url)] + b)
            == Convert(a) + [ImagePart(if mime == "" then media else mime, detail, None, Some(payload))] + Convert(b)
  {
    hide Convert;
    var url := "data:" + (media + (";base64" + ("," + payload)));
    DataURLReadsBack(media, payload);
    assert |url| > 0;
    ConvertOne(a, LegacyImage(mime, detail, "", url), b);
  }

  lemma {:induction false} DataURLReadsBack(media: string, payload: string)
    requires ',' !in media
    ensures SplitDataURL("data:" + (media + (";base64" + ("," + payload)))) == Some((payload, media))
  {
    var meta := media + ";base64";
    var url := "data:" + (media + (";base64" + ("," + payload)));
    assert url == "data:" + meta + "," + payload;
    var n := 5 + |meta|;
    assert url[n] == ',';
    assert forall k | 0 <= k < n :: url[k] != ',' by {
      forall k | 0 <= k < n ensures url[k] != ',' {
        if 5 <= k < 5 + |media| {
          assert url[k] == media[k - 5];
        }
      }
    }
    assert IndexOf(url, ',') == n;
    assert url[5..n] == meta && url[n + 1..] == payload;
    assert meta[|meta| - 7..] == ";base64" && meta[..|meta| - 7] == media;
  }

  lemma {:induction false} ConvertOne(a: seq<LegacyPart>, part: LegacyPart, b: seq<LegacyPart>)
    requires part.LegacyImage?
    ensures Convert(a + [part] + b) == Convert(a) + [ConvertImage(part)] + Convert(b)
  {
    hide ConvertImage;
    ConvertConcat(a + [part], b);
    ConvertConcat(a, [part]);
    assert [part][..0] == [] && Convert([]) == [];
  }

  /** What a message holds, in whichever of its fields: its text, its old parts
      and its new parts. */
  function Said(m: Message): seq<Atom>
  {
    Glyphs(m.content) + (OldAtoms(m.legacyParts) + PartAtoms(m.userParts))
  }

  /** All the pictures and all the characters but space of a history, in
      the order in which they are said. */
  function Atoms(ms: seq<Message>): seq<Atom>
  {
    if ms == [] then [] else Atoms(ms[..|ms| - 1]) + Said(ms[|ms| - 1])
  }

  /** Says nothing beside the one field that its parts are taken from. */
  predicate Whole(m: Message)
  {
    && (m.userParts != [] ==> Glyphs(m.content) == [] && OldAtoms(m.legacyParts) == [])
    && (m.userParts == [] && m.legacyParts != [] ==> Glyphs(m.content) == [])
  }

  lemma {:induction false} GlyphsConcat(a: string, b: string)
    ensures Glyphs(a + b) == Glyphs(a) + Glyphs(b)
  {
    hide IsSpace;
    if b == [] {
      assert a + b == a;
    } else {
      var init, last := b[..|b| - 1], b[|b| - 1];
      GlyphsConcat(a, init);
      assert (a + b)[..|a + b| - 1] == a + init && (a + b)[|a + b| - 1] == last;
      Assoc(Glyphs(a), Glyphs(init), if IsSpace(last) then [] else [Glyph(last)]);
    }
  }

  lemma {:induction false} BlankHasNoGlyphs(s: string)
    requires forall i | 0 <= i < |s| :: IsSpace(s[i])
    ensures Glyphs(s) == []
  {
    if s != [] {
      BlankHasNoGlyphs(s[..|s| - 1]);
    }
  }

  lemma {:induction false} PartAtomsConcat(a: seq<Part>, b: seq<Part>)
    ensures PartAtoms(a + b) == PartAtoms(a) + PartAtoms(b)
  {
    hide Glyphs;
    if b == [] {
      assert a + b == a;
    } else {
      var init, last := b[..|b| - 1], b[|b| - 1];
      PartAtomsConcat(a, init);
      assert (a + b)[..|a + b| - 1] == a + init && (a + b)[|a + b| - 1] == last;
      Assoc(PartAtoms(a), PartAtoms(init), if last.TextPart? then Glyphs(last.text) else [Picture(last)]);
    }
  }

  lemma {:induction false} TextAtoms(m: Message)
    requires !HasMultiContent(m)
    ensures PartAtoms(Parts(m)) == Glyphs(m.content)
  {
    hide TrimSpace, IsSpace, Glyphs, Convert;
    if TrimSpace(m.content) == "" {
      TrimSpaceEmpty(m.content);
      BlankHasNoGlyphs(m.content);
    } else {
      assert [TextPart(m.content)][..0] == [];
      assert PartAtoms([]) == [];
    }
  }

  lemma {:induction false} JoinTextGlyphs(p: string, m: string)
    ensures Glyphs(JoinText(p, m)) == Glyphs(p) + Glyphs(m)
  {
    if p == "" || m == "" {
      assert Glyphs("") == [];
    } else {
      GlyphsConcat(p + "\n\n", m);
      GlyphsConcat(p, "\n\n");
      BlankHasNoGlyphs("\n\n");
    }
  }

  /** The parts of a message say all that it says exactly if it is whole; they
      never say more. */
  lemma {:induction false} PartsSayWholeMessages(m: Message)
    ensures PartAtoms(Parts(m)) == Said(m) <==> Whole(m)
    ensures |PartAtoms(Parts(m))| <= |Said(m)|
  {
    hide Glyphs, Convert;
    NoPartAtoms();
    ConvertSaysAll(m.legacyParts);
    var g, l, u := Glyphs(m.content), OldAtoms(m.legacyParts), PartAtoms(m.userParts);
    if m.userParts != [] {
      assert g == [] && l == [] ==> g + (l + u) == u;
    } else if m.legacyParts != [] {
      assert g == [] ==> g + (l + u) == l;
    } else {
      TextAtoms(m);
      ConvertNothing();
      assert g + (l + u) == g;
    }
  }

  lemma {:induction false} NoPartAtoms()
    ensures PartAtoms([]) == []
  {
  }

  lemma {:induction false} ConvertNothing()
    ensures Convert([]) == [] && Glyphs("") == [] && OldAtoms([]) == []
  {
  }

  lemma {:induction false} JoinedParts(p: Message, m: Message)
    requires HasMultiContent(p) || HasMultiContent(m)
    ensures Said(Join(p, m)) == PartAtoms(Parts(p)) + PartAtoms(Parts(m)) && Whole(Join(p, m))
  {
    hide Parts, Glyphs, PartAtoms, Convert;
    PartAtomsConcat(Parts(p), Parts(m));
    ConvertNothing();
    NoPartAtoms();
    var both := PartAtoms(Parts(p) + Parts(m));
    assert [] + ([] + both) == both;
  }

  lemma {:induction false} JoinedText(p: Message, m: Message)
    requires !HasMultiContent(p) && !HasMultiContent(m)
    ensures Said(Join(p, m)) == Said(p) + Said(m) && Whole(p) && Whole(m) && Whole(Join(p, m))
  {
    hide Glyphs, PartAtoms, Convert, JoinText;
    JoinPlainText(p, m);
    JoinTextGlyphs(p.content, m.content);
    SaidText(p);
    SaidText(m);
    SaidText(Join(p, m));
  }

  lemma {:induction false} SaidText(m: Message)
    requires !HasMultiContent(m)
    ensures Said(m) == Glyphs(m.content)
  {
    hide Glyphs;
    ConvertNothing();
    NoPartAtoms();
  }

  /** Joining keeps all that two messages say exactly if both are whole, and
      leaves a whole message. */
  lemma {:induction false} JoinKeeps(p: Message, m: Message)
    ensures Said(Join(p, m)) == Said(p) + Said(m) <==> Whole(p) && Whole(m)
    ensures |Said(Join(p, m))| <= |Said(p)| + |Said(m)|
    ensures |Said(Join(p, m))| == |Said(p)| + |Said(m)| ==> Whole(p) && Whole(m)
    ensures Whole(Join(p, m))
  {
    hide Said, Whole, Parts, PartAtoms, Join;
    if HasMultiContent(p) || HasMultiContent(m) {
      JoinedParts(p, m);
      PartsSayWholeMessages(p);
      PartsSayWholeMessages(m);
      PartsLength(p);
      PartsLength(m);
    } else {
      JoinedText(p, m);
    }
  }

  /** What is missing from the parts shows in their number. */
  lemma {:induction false} PartsLength(m: Message)
    ensures |PartAtoms(Parts(m))| == |Said(m)| ==> Whole(m)
  {
    hide Glyphs, PartAtoms, Convert;
    NoPartAtoms();
    ConvertSaysAll(m.legacyParts);
    if !HasMultiContent(m) {
      SaidText(m);
    }
  }

  // ----- What merging keeps -----

  /** Message j is joined with a neighbour. */
  predicate Joined(ms: seq<Message>, j: nat)
    requires j < |ms|
  {
    || (j > 0 && Mergeable(ms[j - 1], ms[j]))
    || (j + 1 < |ms| && Mergeable(ms[j], ms[j + 1]))
  }

  /** Every message that is joined with another is whole. */
  predicate JoinsWhole(ms: seq<Message>)
  {
    forall j | 0 <= j < |ms| && Joined(ms, j) :: Whole(ms[j])
  }

  lemma {:induction false} JoinsWholeStep(ms: seq<Message>)
    requires |ms| > 1
    ensures var n := |ms| - 1;
            var joinedWhole := Mergeable(ms[n - 1], ms[n]) ==> Whole(ms[n - 1]) && Whole(ms[n]);
            JoinsWhole(ms) <==> JoinsWhole(ms[..n]) && joinedWhole
  {
    hide Whole, Mergeable, Joined;
    var n := |ms| - 1;
    JoinedLast(ms);
    forall j | 0 <= j < n ensures JoinedAmong(ms, j) {
      JoinedPrefix(ms, j);
    }
    assert forall j | 0 <= j < n :: JoinedAmong(ms, j) && ms[..n][j] == ms[j];
    assert JoinedAmong(ms, n - 1);
  }

  lemma {:induction false} JoinedLast(ms: seq<Message>)
    requires |ms| > 1
    ensures Joined(ms, |ms| - 1) <==> Mergeable(ms[|ms| - 2], ms[|ms| - 1])
  {
    hide Mergeable;
  }

  /** Which of the messages before the last one are joined. */
  predicate JoinedAmong(ms: seq<Message>, j: nat)
    requires j + 1 < |ms|
  {
    Joined(ms, j) <==> Joined(ms[..|ms| - 1], j) || (j + 2 == |ms| && Mergeable(ms[j], ms[j + 1]))
  }

  lemma {:induction false} JoinedPrefix(ms: seq<Message>, j: nat)
    requires j + 1 < |ms|
    ensures JoinedAmong(ms, j)
  {
    hide Mergeable;
    assert ms[..|ms| - 1][j] == ms[j];
  }

  /** The last message out is the last one in, not joined so far, or a whole
      joined one. */
  lemma {:induction false} LastIsWholeOrNew(ms: seq<Message>)
    requires ms != []
    ensures Merge(ms) != []
    ensures var o, n := Merge(ms)[|Merge(ms)| - 1], |ms| - 1; if Joined(ms, n) then Whole(o) else o == ms[n]
  {
    hide Join, Whole, Merge;
    var n := |ms| - 1;
    MergeStep(ms, n);
    assert ms[..n + 1] == ms;
    if n > 0 {
      LastOut(ms[..n]);
      var out := Merge(ms[..n]);
      JoinKeeps(out[|out| - 1], ms[n]);
    } else {
      MergeShort(ms);
    }
  }

  lemma {:induction false} AttachAtoms(out: seq<Message>, m: Message)
    ensures out != [] && Mergeable(out[|out| - 1], m) ==>
              Atoms(Attach(out, m)) == Atoms(out[..|out| - 1]) + Said(Join(out[|out| - 1], m))
              && Atoms(out) == Atoms(out[..|out| - 1]) + Said(out[|out| - 1])
    ensures out == [] || !Mergeable(out[|out| - 1], m) ==> Atoms(Attach(out, m)) == Atoms(out) + Said(m)
  {
    hide Said, Join, Mergeable;
    var n := |out| - 1;
    if out != [] && Mergeable(out[n], m) {
      var after := out[..n] + [Join(out[n], m)];
      assert after[..|after| - 1] == out[..n];
    } else {
      assert (out + [m])[..|out|] == out;
    }
  }

  /** Merging loses no picture and no visible character, and moves none, exactly
      if every message it joins is whole; otherwise some are lost. */
  lemma {:induction false} MergeKeepsAtoms(ms: seq<Message>)
    ensures Atoms(Merge(ms)) == Atoms(ms) <==> JoinsWhole(ms)
    ensures |Atoms(Merge(ms))| <= |Atoms(ms)|
    ensures |Atoms(Merge(ms))| == |Atoms(ms)| ==> JoinsWhole(ms)
  {
    hide Said, Whole, Attach, Merge, Joined, JoinsWhole, Join, Mergeable;
    if |ms| < 2 {
      MergeShort(ms);
      ShortJoinsWhole(ms);
    } else {
      var n := |ms| - 1;
      var out, m := Merge(ms[..n]), ms[n];
      MergeKeepsAtoms(ms[..n]);
      JoinsWholeStep(ms);
      MergeStep(ms, n);
      assert ms[..n + 1] == ms;
      MergeKeepsStep(ms[..n], m);
    }
  }

  lemma {:induction false} ShortJoinsWhole(ms: seq<Message>)
    requires |ms| < 2
    ensures JoinsWhole(ms)
  {
  }

  /** One more message: what was lost stays lost, and a join loses more exactly
      if one of the two is not whole. */
  lemma {:induction false} MergeKeepsStep(init: seq<Message>, m: Message)
    requires init != []
    requires Atoms(Merge(init)) == Atoms(init) <==> JoinsWhole(init)
    requires |Atoms(Merge(init))| <= |Atoms(init)|
    requires |Atoms(Merge(init))| == |Atoms(init)| ==> JoinsWhole(init)
    ensures var joins := JoinsWhole(init) && (Mergeable(init[|init| - 1], m) ==> Whole(init[|init| - 1]) && Whole(m));
            && (Atoms(Attach(Merge(init), m)) == Atoms(init) + Said(m) <==> joins)
            && |Atoms(Attach(Merge(init), m))| <= |Atoms(init) + Said(m)|
            && (|Atoms(Attach(Merge(init), m))| == |Atoms(init) + Said(m)| ==> joins)
  {
    hide Said, Whole, Attach, Merge, Join, Joined, JoinsWhole, Atoms;
    var out := Merge(init);
    LastOut(init);
    AttachAtoms(out, m);
    var last := out[|out| - 1];
    LastJoined(init);
    if Mergeable(last, m) {
      JoinKeeps(last, m);
      Assoc(Atoms(out[..|out| - 1]), Said(last), Said(m));
    }
  }

  /** For the next join the last message out is as whole as the last one in,
      unless that was lost already. */
  lemma {:induction false} LastJoined(init: seq<Message>)
    requires init != [] && Merge(init) != []
    ensures var o, i := Merge(init)[|Merge(init)| - 1], init[|init| - 1];
            JoinsWhole(init) ==> (Whole(o) <==> Whole(i))
  {
    hide Whole, Merge, Joined;
    LastIsWholeOrNew(init);
  }

  const PICTURE := ImagePart("image/png", "", None, None)
  const CAPTIONED := Message(User, "hi", "", [], "", [PICTURE], [], [])
  const FOLLOWING := Message(User, "yo", "", [], "", [], [], [])

  /** A text beside a picture is lost as soon as its message is joined. */
  lemma {:induction false} MergeErasesTextBesidePictures()
    ensures var history := [CAPTIONED, FOLLOWING];
            && Merge(history) == [CAPTIONED.(content := "", userParts := [PICTURE, TextPart("yo")])]
            && Atoms(Merge(history)) != Atoms(history)
  {
    hide Merge, Join, Atoms, Said, Whole, JoinsWhole;
    CaptionIsErased();
    MergeTwo(CAPTIONED, FOLLOWING);
    MergeKeepsAtoms([CAPTIONED, FOLLOWING]);
    assert !JoinsWhole([CAPTIONED, FOLLOWING]) by { NotWhole([CAPTIONED, FOLLOWING]); }
  }

  lemma {:induction false} NotWhole(ms: seq<Message>)
    requires |ms| == 2 && Mergeable(ms[0], ms[1]) && !Whole(ms[0])
    ensures !JoinsWhole(ms)
  {
    hide Whole, Mergeable;
    assert Joined(ms, 0);
  }

  lemma {:induction false} MergeTwo(p: Message, m: Message)
    requires Mergeable(p, m)
    ensures Merge([p, m]) == [Join(p, m)]
  {
    hide Join, Mergeable, Merge;
    MergeShort([p]);
    MergeStep([p, m], 1);
    assert [p, m][..1] == [p] && [p, m][..2] == [p, m] && [p][..0] == [];
  }

  lemma {:induction false} CaptionIsErased()
    ensures Join(CAPTIONED, FOLLOWING) == CAPTIONED.(content := "", userParts := [PICTURE, TextPart("yo")])
    ensures !Whole(CAPTIONED)
  {
    hide Glyphs, TrimSpace, Convert, PartAtoms;
    LettersShow();
  }

  lemma {:induction false} LettersShow()
    ensures Glyphs("hi") != [] && TrimSpace("yo") == "yo"
  {
    assert !IsSpace('i') && !IsSpace('y') && !IsSpace('o');
    assert TrimLeft("yo") == "yo" && TrimRight("yo") == "yo";
  }

  // ----- The whole pipeline -----

  /** Adjacent, but for a call at the very end that still waits for its
      result. */
  predicate Pending(ms: seq<Message>)
  {
    && (forall j | 0 <= j < |ms| && IsTool(ms[j]) :: j > 0 && Answers(ms[j - 1], ms[j]))
    && (forall j | 0 <= j < |ms| - 1 && IsCalling(ms[j]) :: Answers(ms[j], ms[j + 1]))
  }

  lemma {:induction false} MergeKeepsPending(ms: seq<Message>)
    requires Pending(ms)
    ensures Pending(Merge(ms))
  {
    hide Answers, IsTool, IsCalling, Attach;
    if ms != [] {
      var init, m := ms[..|ms| - 1], ms[|ms| - 1];
      MergeKeepsPending(init);
      if init == [] {
        MergeShort(ms);
      } else {
        LastOut(init);
        LastSteps(ms);
        AttachKeepsPending(Merge(init), m, init[|init| - 1]);
      }
    }
  }

  lemma {:induction false} LastSteps(ms: seq<Message>)
    requires Pending(ms) && |ms| > 1
    ensures var p, m := ms[|ms| - 2], ms[|ms| - 1]; IsTool(m) || IsCalling(p) ==> Answers(p, m)
  {
  }

  lemma {:induction false} AttachKeepsPending(out: seq<Message>, m: Message, p: Message)
    requires Pending(out) && out != []
    requires IsTool(m) || IsCalling(p) ==> Answers(p, m)
    requires out[|out| - 1] == p || (Plain(out[|out| - 1]) && Plain(p))
    ensures Pending(Attach(out, m))
  {
    hide Join;
    var n := |out| - 1;
    JoinIsPlain(out[n], m);
    var after := Attach(out, m);
    forall j | 0 <= j < |after| && IsTool(after[j]) ensures j > 0 && Answers(after[j - 1], after[j]) {
      if j < |out| {
        assert IsTool(out[j]);
      }
    }
  }

  /** Merging leaves the tool exchange as it was. */
  lemma {:induction false} MergeCanonical(ms: seq<Message>)
    requires Canonical(ms)
    ensures Canonical(Merge(ms))
  {
    hide Canonical, Answers, Merge;
    CanonicalIsAdjacent(ms);
    MergeKeepsPending(ms);
    if ms != [] {
      LastOut(ms);
    } else {
      MergeShort(ms);
    }
    CanonicalIsAdjacent(Merge(ms));
  }

  predicate Indexless(ms: seq<Message>)
  {
    forall j | 0 <= j < |ms| :: ReindexMessage(ms[j], Replay) == ms[j]
  }

  lemma {:induction false} IndexlessIsFixed(ms: seq<Message>)
    ensures Indexless(ms) <==> Reindex(ms, Replay) == ms
  {
    hide ReindexMessage;
    if ms != [] {
      IndexlessIsFixed(ms[1..]);
      var r := Reindex(ms, Replay);
      assert r[1..] == Reindex(ms[1..], Replay);
      if Indexless(ms) {
        assert Indexless(ms[1..]);
        assert ms == [ms[0]] + ms[1..];
      }
      if r == ms {
        assert forall j | 1 <= j < |ms| :: ms[j] == ms[1..][j - 1];
      }
    }
  }

  lemma {:induction false} AttachIndexless(out: seq<Message>, m: Message)
    requires Indexless(out) && ReindexMessage(m, Replay) == m
    ensures Indexless(Attach(out, m))
  {
    hide ReindexMessage, Join;
    if out != [] && Mergeable(out[|out| - 1], m) {
      JoinIsPlain(out[|out| - 1], m);
      OtherImage(Join(out[|out| - 1], m), [], Replay);
    }
  }

  lemma {:induction false} MergeIndexless(ms: seq<Message>)
    requires Indexless(ms)
    ensures Indexless(Merge(ms))
  {
    hide ReindexMessage, Attach;
    if ms != [] {
      var out, m := Merge(ms[..|ms| - 1]), ms[|ms| - 1];
      MergeIndexless(ms[..|ms| - 1]);
      AttachIndexless(out, m);
    }
  }

  /** The history a model is given. */
  function Prepared(ms: seq<Message>): seq<Message>
  {
    Merge(Normalize(ms, Replay))
  }

  method BuildHistory(messages: seq<Message>) returns (merged: seq<MessageRef>)
    ensures Messages(merged) == Prepared(messages)
  {
    hide Normalize, Merge, Messages;
    var normalized := NormalizeToolReplayHistory(messages);
    var refs := Allocate(normalized);
    ghost var kept;
    merged, kept := MergeConsecutiveUserMessages(refs);
  }

  method Allocate(ms: seq<Message>) returns (refs: seq<MessageRef>)
    ensures Distinct(refs) && Messages(refs) == ms
    ensures forall k | 0 <= k < |refs| :: fresh(refs[k])
  {
    refs := [];
    for k := 0 to |ms|
      invariant |refs| == k && Distinct(refs)
      invariant forall j | 0 <= j < k :: fresh(refs[j]) && refs[j].message == ms[j]
    {
      var r := new MessageRef(ms[k]);
      refs := refs + [r];
    }
  }

  /** What a model is given keeps each result next to its call, never has two
      plain user messages in a row, and is stable: preparing it again changes
      nothing. */
  lemma {:induction false} PreparedHistories(ms: seq<Message>)
    ensures Canonical(Prepared(ms)) && Settled(Prepared(ms))
    ensures Prepared(Prepared(ms)) == Prepared(ms)
  {
    hide Normalize, Merge, Canonical, Settled, Reindex, Indexless;
    var x := Normalize(ms, Replay);
    NormalizeCanonical(ms, Replay);
    MergeCanonical(x);
    MergeSettles(x);
    ReindexedFixed(ms, Replay);
    IndexlessIsFixed(x);
    MergeIndexless(x);
    IndexlessIsFixed(Merge(x));
    CanonicalFixed(Merge(x), Replay);
    MergeIdempotent(x);
  }
}
