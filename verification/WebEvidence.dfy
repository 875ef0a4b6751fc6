/** What earlier web tool results of a session said, one item per page, the
    page mentioned last at the end. */
module WebEvidence {
  import opened Sequences
  import opened Text
  import TS = ThinkSplit

  datatype Tool = WebSearch | WebExtract | NotWeb

  /** callId is None when the message does not decode strictly. */
  datatype Message = Message(tool: Tool, callId: Option<string>, content: string)

  datatype Citation = Citation(title: string, url: string, snippet: string)

  datatype SearchOutput = SearchOutput(summary: string, searchFailed: bool, citations: seq<Citation>)

  datatype ExtractOutput = ExtractOutput(ok: bool, url: string, title: string, content: string, detail: string)

  datatype Kind = Search | Extract

  datatype Item = Item(kind: Kind, query: string, title: string, url: string, excerpt: string, detail: string)

  /** URL normalisation (blank for what is no absolute URL), the digest, and
      the JSON decoders. */
  datatype Env = Env(
    key: string -> string,
    digest: string -> int,
    search: string -> Option<SearchOutput>,
    extract: string -> Option<ExtractOutput>)

  function KeyOf(env: Env, item: Item): string { env.key(item.url) }

  function Truncate(content: string, limit: nat): string
  {
    var runes := TrimSpace(content);
    if |runes| <= limit then runes else runes[..limit] + "..."
  }

  function QueryFromSearchSummary(raw: string): string
  {
    var summary := TrimSpace(raw);
    var prefix := "Search results for \"";
    if !(prefix <= summary) then ""
    else
      var rest := summary[|prefix|..];
      var end := TS.Index(rest, "\":");
      if end < 0 then "" else rest[..end]
  }

  function Fingerprint(env: Env, m: Message): Option<int>
  {
    if m.tool.NotWeb? || m.callId.None? then None
    else
      var name := if m.tool.WebSearch? then "web_search" else "web_extract";
      Some(env.digest(name + "\0" + m.callId.value + "\0" + m.content))
  }

  function CitationItem(query: string, c: Citation): (item: Item)
    ensures item.kind == Search
  {
    Item(Search, query, TrimSpace(c.title), TrimSpace(c.url), Truncate(c.snippet, 700), "")
  }

  function ExtractItem(o: ExtractOutput): Item
  {
    Item(Extract, "", TrimSpace(o.title), TrimSpace(o.url), Truncate(o.content, 1200), o.detail)
  }

  function Citations(env: Env, query: string, cs: seq<Citation>): seq<Item>
  {
    if cs == [] then []
    else
      var item := CitationItem(query, cs[|cs| - 1]);
      Citations(env, query, cs[..|cs| - 1]) + if KeyOf(env, item) == "" then [] else [item]
  }

  function ParseSearch(env: Env, m: Message): Option<SearchOutput>
  {
    if m.tool.WebSearch? && TrimSpace(m.content) != "" then env.search(m.content) else None
  }

  function ParseExtract(env: Env, m: Message): Option<ExtractOutput>
  {
    if m.tool.WebExtract? && TrimSpace(m.content) != "" then env.extract(m.content) else None
  }

  /** The pages a message mentions, in order. */
  function Mentions(env: Env, m: Message): seq<Item>
  {
    var s, e := ParseSearch(env, m), ParseExtract(env, m);
    if s.Some? && !s.value.searchFailed && s.value.citations != [] then
      Citations(env, QueryFromSearchSummary(s.value.summary), s.value.citations)
    else if e.Some? && e.value.ok && TrimSpace(e.value.content) != "" && KeyOf(env, ExtractItem(e.value)) != "" then
      [ExtractItem(e.value)]
    else []
  }

  predicate Seen(env: Env, ms: seq<Message>, fingerprint: int)
  {
    exists j | 0 <= j < |ms| :: Fingerprint(env, ms[j]) == Some(fingerprint)
  }

  predicate Repeated(env: Env, earlier: seq<Message>, m: Message)
  {
    Fingerprint(env, m).Some? && Seen(env, earlier, Fingerprint(env, m).value)
  }

  /** Every mention of a history; a repeated result mentions nothing. */
  function Trail(env: Env, ms: seq<Message>): seq<Item>
  {
    if ms == [] then []
    else
      var init, m := ms[..|ms| - 1], ms[|ms| - 1];
      Trail(env, init) + if Repeated(env, init, m) then [] else Mentions(env, m)
  }

  // ----- What the index stands for -----

  /** The last mention of a key, or its last extract. */
  function Last(env: Env, trail: seq<Item>, key: string, extracts: bool): (r: int)
    ensures -1 <= r < |trail|
    ensures r >= 0 ==> KeyOf(env, trail[r]) == key && (extracts ==> trail[r].kind == Extract)
    ensures forall t | r < t < |trail| && KeyOf(env, trail[t]) == key :: extracts && trail[t].kind != Extract
  {
    var n := |trail| - 1;
    if trail == [] then -1
    else if KeyOf(env, trail[n]) == key && (extracts ==> trail[n].kind == Extract) then n
    else Last(env, trail[..n], key, extracts)
  }

  /** The latest extract of a page if there is one, else its latest search. */
  function Chosen(env: Env, trail: seq<Item>, key: string): (item: Item)
    requires Last(env, trail, key, false) >= 0
    ensures KeyOf(env, item) == key
  {
    var e := Last(env, trail, key, true);
    trail[if e >= 0 then e else Last(env, trail, key, false)]
  }

  /** The map gives the position of every key's item, and nothing else. */
  ghost predicate Indexed(env: Env, items: seq<Item>, index: map<string, int>)
  {
    && (forall a | 0 <= a < |items| :: KeyOf(env, items[a]) in index && index[KeyOf(env, items[a])] == a)
    && (forall k | k in index :: 0 <= index[k] < |items| && KeyOf(env, items[index[k]]) == k)
  }

  /** One item per page mentioned, the chosen one, in order of last mention. */
  ghost predicate Reflects(env: Env, trail: seq<Item>, items: seq<Item>, index: map<string, int>)
  {
    && Indexed(env, items, index)
    && (forall t | 0 <= t < |trail| :: KeyOf(env, trail[t]) in index)
    && (forall k | k in index :: Last(env, trail, k, false) >= 0 && items[index[k]] == Chosen(env, trail, k))
    && (forall j, k | j in index && k in index && index[j] < index[k] ::
      Last(env, trail, j, false) < Last(env, trail, k, false))
  }

  /** The mentions leave no choice. */
  lemma {:induction false} ReflectsUniquely(env: Env, trail: seq<Item>, x: seq<Item>, i: map<string, int>,
                                            y: seq<Item>, j: map<string, int>)
    requires Reflects(env, trail, x, i) && Reflects(env, trail, y, j)
    ensures x == y && i == j
  {
    hide Chosen, Last, KeyOf, Indexed;
    SamePrefix(env, trail, x, i, y, j, |x|);
    SamePrefix(env, trail, y, j, x, i, |y|);
    assert x[..|x|] == x && y[..|x|] == y;
    ItemsFixIndex(env, x, i, j);
  }

  lemma {:induction false} ItemsFixIndex(env: Env, items: seq<Item>, i: map<string, int>, j: map<string, int>)
    requires Indexed(env, items, i) && Indexed(env, items, j)
    ensures i == j
  {
    hide KeyOf;
    forall k | k in i ensures k in j && i[k] == j[k] {
      assert KeyOf(env, items[i[k]]) == k;
    }
    forall k | k in j ensures k in i {
      assert KeyOf(env, items[j[k]]) == k;
    }
  }

  lemma {:induction false} KeysAgree(env: Env, trail: seq<Item>, x: seq<Item>, i: map<string, int>,
                                     y: seq<Item>, j: map<string, int>)
    requires Reflects(env, trail, x, i) && Reflects(env, trail, y, j)
    ensures i.Keys <= j.Keys
  {
    hide Chosen, KeyOf;
    forall k | k in i ensures k in j {
      assert KeyOf(env, trail[Last(env, trail, k, false)]) == k;
    }
  }

  lemma {:induction false} SamePrefix(env: Env, trail: seq<Item>, x: seq<Item>, i: map<string, int>,
                                      y: seq<Item>, j: map<string, int>, a: nat)
    requires Reflects(env, trail, x, i) && Reflects(env, trail, y, j)
    requires a <= |x|
    ensures a <= |y| && x[..a] == y[..a]
  {
    hide Reflects;
    if a > 0 {
      SamePrefix(env, trail, x, i, y, j, a - 1);
      SameNext(env, trail, x, i, y, j, a - 1);
      assert x[..a] == x[..a - 1] + [x[a - 1]] && y[..a] == y[..a - 1] + [y[a - 1]];
    }
  }

  lemma {:induction false} SameNext(env: Env, trail: seq<Item>, x: seq<Item>, i: map<string, int>,
                                    y: seq<Item>, j: map<string, int>, b: nat)
    requires Reflects(env, trail, x, i) && Reflects(env, trail, y, j)
    requires b < |x| && b <= |y| && x[..b] == y[..b]
    ensures b < |y| && x[b] == y[b]
  {
    hide Chosen, Last, KeyOf, Reflects;
    KeysAgree(env, trail, x, i, y, j);
    KeysAgree(env, trail, y, j, x, i);
    var k := KeyOf(env, x[b]);
    ItemAt(env, trail, x, i, b);
    NotBefore(env, trail, x, i, y, j, b);
    var l := KeyOf(env, y[b]);
    ItemAt(env, trail, y, j, b);
    NotBefore(env, trail, y, j, x, i, b);
    Ordered(env, trail, x, i, k, l);
    Ordered(env, trail, y, j, l, k);
  }

  lemma {:induction false} ItemAt(env: Env, trail: seq<Item>, items: seq<Item>, index: map<string, int>, b: nat)
    requires Reflects(env, trail, items, index) && b < |items|
    ensures var k := KeyOf(env, items[b]); k in index && index[k] == b
  {
    hide Chosen, Last, KeyOf;
  }

  lemma {:induction false} Ordered(env: Env, trail: seq<Item>, items: seq<Item>, index: map<string, int>,
                                   k: string, l: string)
    requires Reflects(env, trail, items, index) && k in index && l in index
    ensures 0 <= index[k] < |items| && KeyOf(env, items[index[k]]) == k
    ensures 0 <= index[l] < |items| && KeyOf(env, items[index[l]]) == l
    ensures Last(env, trail, k, false) >= 0 && items[index[k]] == Chosen(env, trail, k)
    ensures index[k] < index[l] ==> Last(env, trail, k, false) < Last(env, trail, l, false)
  {
    hide Chosen, Last, KeyOf;
  }

  lemma {:induction false} NotBefore(env: Env, trail: seq<Item>, x: seq<Item>, i: map<string, int>,
                                     y: seq<Item>, j: map<string, int>, b: nat)
    requires Reflects(env, trail, x, i) && Reflects(env, trail, y, j)
    requires b < |x| && b <= |y| && x[..b] == y[..b]
    requires KeyOf(env, x[b]) in j
    ensures b <= j[KeyOf(env, x[b])] < |y|
  {
    hide Chosen, Last, KeyOf;
    assert forall q | 0 <= q < b :: x[..b][q] == x[q] && y[..b][q] == y[q] && i[KeyOf(env, x[q])] == q;
  }

  // ----- Keeping the index -----

  lemma {:induction false} LastGrows(env: Env, trail: seq<Item>, m: Item, key: string, extracts: bool)
    ensures Last(env, trail + [m], key, extracts)
         == if KeyOf(env, m) == key && (extracts ==> m.kind == Extract) then |trail|
            else Last(env, trail, key, extracts)
  {
    assert (trail + [m])[..|trail|] == trail;
  }

  /** Another mention decides the choice for its own page only: an extract
      always wins, a search unless an extract is held. */
  lemma {:induction false} ChosenGrows(env: Env, trail: seq<Item>, m: Item, key: string)
    requires Last(env, trail, key, false) >= 0 || KeyOf(env, m) == key
    ensures Last(env, trail + [m], key, false) >= 0
    ensures Chosen(env, trail + [m], key)
         == if KeyOf(env, m) == key
               && (|| m.kind == Extract
                   || Last(env, trail, key, false) < 0
                   || Chosen(env, trail, key).kind != Extract) then m
            else Chosen(env, trail, key)
  {
    hide Last, KeyOf;
    LastGrows(env, trail, m, key, false);
    LastGrows(env, trail, m, key, true);
  }

  lemma {:induction false} NewPage(env: Env, trail: seq<Item>, items: seq<Item>, index: map<string, int>, m: Item)
    requires Reflects(env, trail, items, index) && KeyOf(env, m) !in index
    ensures Reflects(env, trail + [m], items + [m], index[KeyOf(env, m) := |items|])
  {
    hide Chosen, Last, KeyOf;
    var key := KeyOf(env, m);
    var after := index[key := |items|];
    assert Last(env, trail, key, false) < 0;
    forall k | k in after ensures
      && Last(env, trail + [m], k, false) == (if k == key then |trail| else Last(env, trail, k, false)) >= 0
      && (items + [m])[after[k]] == Chosen(env, trail + [m], k)
    {
      LastGrows(env, trail, m, k, false);
      ChosenGrows(env, trail, m, k);
    }
  }

  function MovedToEnd(items: seq<Item>, i: nat, item: Item): (out: seq<Item>)
    requires i < |items|
    ensures |out| == |items|
  {
    items[..i] + items[i + 1..] + [item]
  }

  lemma {:induction false} KnownPage(env: Env, trail: seq<Item>, items: seq<Item>, index: map<string, int>,
                                     m: Item, x: Item, after: map<string, int>)
    requires Reflects(env, trail, items, index) && KeyOf(env, m) in index
    requires x == if m.kind == Extract || items[index[KeyOf(env, m)]].kind != Extract then m
                  else items[index[KeyOf(env, m)]]
    requires Indexed(env, MovedToEnd(items, index[KeyOf(env, m)], x), after)
    ensures Reflects(env, trail + [m], MovedToEnd(items, index[KeyOf(env, m)], x), after)
  {
    hide Chosen, Last, KeyOf, MovedToEnd, Indexed, Reflects;
    var key := KeyOf(env, m);
    Reflected(env, trail, items, index);
    MovedPositions(env, items, index, key, x, after);
    forall k | k in after ensures
      && Last(env, trail + [m], k, false) == (if k == key then |trail| else Last(env, trail, k, false)) >= 0
      && MovedToEnd(items, index[key], x)[after[k]] == Chosen(env, trail + [m], k)
    {
      StillChosen(env, trail, items, index, m, k);
    }
    forall j, k | j in after && k in after && after[j] < after[k]
      ensures Last(env, trail + [m], j, false) < Last(env, trail + [m], k, false)
    {
      assert j != key && (k != key ==> index[j] < index[k]);
    }
    Assemble(env, trail, index, m, MovedToEnd(items, index[key], x), after);
  }

  lemma {:induction false} Reflected(env: Env, trail: seq<Item>, items: seq<Item>, index: map<string, int>)
    requires Reflects(env, trail, items, index)
    ensures Indexed(env, items, index)
    ensures forall k | k in index :: 0 <= index[k] < |items| && KeyOf(env, items[index[k]]) == k
    ensures forall t | 0 <= t < |trail| :: KeyOf(env, trail[t]) in index
    ensures forall j, k | j in index && k in index && j != k :: index[j] != index[k]
    ensures forall j, k | j in index && k in index && index[j] < index[k] ::
        Last(env, trail, j, false) < Last(env, trail, k, false)
    ensures forall k | k in index :: Last(env, trail, k, false) >= 0
  {
    hide Chosen, Last, KeyOf;
  }

  lemma {:induction false} Assemble(env: Env, trail: seq<Item>, index: map<string, int>, m: Item,
                                    out: seq<Item>, after: map<string, int>)
    requires Indexed(env, out, after) && (forall k | k in after :: 0 <= after[k] < |out|)
    requires after.Keys == index.Keys && KeyOf(env, m) in index
    requires forall t | 0 <= t < |trail| :: KeyOf(env, trail[t]) in index
    requires forall k | k in after :: Last(env, trail + [m], k, false) >= 0
    requires forall k | k in after :: out[after[k]] == Chosen(env, trail + [m], k)
    requires forall j, k | j in after && k in after && after[j] < after[k] ::
               Last(env, trail + [m], j, false) < Last(env, trail + [m], k, false)
    ensures Reflects(env, trail + [m], out, after)
  {
    hide Chosen, Last, KeyOf;
    assert forall t | 0 <= t < |trail + [m]| :: KeyOf(env, (trail + [m])[t]) in index;
  }

  lemma {:induction false} StillChosen(env: Env, trail: seq<Item>, items: seq<Item>, index: map<string, int>,
                                       m: Item, k: string)
    requires Reflects(env, trail, items, index) && KeyOf(env, m) in index && k in index
    ensures Last(env, trail + [m], k, false)
        == (if k == KeyOf(env, m) then |trail| else Last(env, trail, k, false)) >= 0
    ensures Chosen(env, trail + [m], k)
         == if k == KeyOf(env, m) && (m.kind == Extract || items[index[k]].kind != Extract) then m else items[index[k]]
  {
    hide Chosen, Last, KeyOf;
    LastGrows(env, trail, m, k, false);
    ChosenGrows(env, trail, m, k);
  }

  lemma {:induction false} MovedPositions(env: Env, items: seq<Item>, index: map<string, int>, key: string,
                                          x: Item, after: map<string, int>)
    requires Indexed(env, items, index) && key in index && KeyOf(env, x) == key
    requires Indexed(env, MovedToEnd(items, index[key], x), after)
    ensures after.Keys == index.Keys
    ensures forall k | k in after ::
              && 0 <= after[k] < |items|
              && after[k] == (if k == key then |items| - 1
                              else if index[k] < index[key] then index[k] else index[k] - 1)
              && MovedToEnd(items, index[key], x)[after[k]] == if k == key then x else items[index[k]]
  {
    hide KeyOf;
    var i := index[key];
    var out := MovedToEnd(items, i, x);
    forall k | k in index ensures
      var p := if k == key then |items| - 1 else if index[k] < i then index[k] else index[k] - 1;
      k in after && after[k] == p && out[p] == if k == key then x else items[index[k]]
    {
      var p := if k == key then |items| - 1 else if index[k] < i then index[k] else index[k] - 1;
      assert k != key ==> index[k] != i;
      assert out[p] == if k == key then x else items[index[k]];
      assert KeyOf(env, out[p]) == k;
    }
    forall k | k in after ensures k in index {
      var p := after[k];
      assert out[p] == if p == |items| - 1 then x else if p < i then items[p] else items[p + 1];
    }
  }

  // ----- The loops -----

  /** Takes the key's item out, puts another at the end, rebuilds the map. */
  method MoveWebEvidenceToEnd(env: Env, items: seq<Item>, index: map<string, int>, key: string, item: Item)
    returns (out: seq<Item>, after: map<string, int>)
    requires Indexed(env, items, index) && key in index && KeyOf(env, item) == key
    ensures out == MovedToEnd(items, index[key], item) && Indexed(env, out, after)
  {
    hide KeyOf;
    var i := index[key];
    out := items[..i] + items[i + 1..];
    out := out + [item];
    MovedDistinct(env, items, index, key, item);
    after := map[];
    for k := 0 to |out|
      invariant forall a | 0 <= a < k :: KeyOf(env, out[a]) in after && after[KeyOf(env, out[a])] == a
      invariant forall x | x in after :: 0 <= after[x] < k && KeyOf(env, out[after[x]]) == x
    {
      after := after[KeyOf(env, out[k]) := k];
    }
  }

  lemma {:induction false} MovedDistinct(env: Env, items: seq<Item>, index: map<string, int>, key: string, x: Item)
    requires Indexed(env, items, index) && key in index && KeyOf(env, x) == key
    ensures var out := MovedToEnd(items, index[key], x);
            forall a, b | 0 <= a < b < |out| :: KeyOf(env, out[a]) != KeyOf(env, out[b])
  {
    hide KeyOf;
    var i := index[key];
    var out := MovedToEnd(items, i, x);
    forall a, b | 0 <= a < b < |out| ensures KeyOf(env, out[a]) != KeyOf(env, out[b]) {
      var p, q := if a < i then a else a + 1, if b < i then b else b + 1;
      assert out[a] == items[p];
      assert b < |out| - 1 ==> out[b] == items[q];
    }
  }

  method AddCitation(env: Env, items: seq<Item>, index: map<string, int>, item: Item, ghost trail: seq<Item>)
    returns (out: seq<Item>, after: map<string, int>)
    requires Reflects(env, trail, items, index) && item.kind == Search
    ensures Reflects(env, trail + [item], out, after)
  {
    hide Chosen, Last, KeyOf;
    var key := KeyOf(env, item);
    if key in index {
      var i := index[key];
      if items[i].kind != Extract {
        out, after := MoveWebEvidenceToEnd(env, items, index, key, item);
        KnownPage(env, trail, items, index, item, item, after);
      } else {
        out, after := MoveWebEvidenceToEnd(env, items, index, key, items[i]);
        KnownPage(env, trail, items, index, item, items[i], after);
      }
      return;
    }
    NewPage(env, trail, items, index, item);
    out, after := items + [item], index[key := |items|];
  }

  method AddExtract(env: Env, items: seq<Item>, index: map<string, int>, item: Item, ghost trail: seq<Item>)
    returns (out: seq<Item>, after: map<string, int>)
    requires Reflects(env, trail, items, index) && item.kind == Extract
    ensures Reflects(env, trail + [item], out, after)
  {
    hide Chosen, Last, KeyOf;
    var key := KeyOf(env, item);
    if key in index {
      out, after := MoveWebEvidenceToEnd(env, items, index, key, item);
      KnownPage(env, trail, items, index, item, item, after);
    } else {
      NewPage(env, trail, items, index, item);
      out, after := items + [item], index[key := |items|];
    }
  }

  method AddCitations(env: Env, items: seq<Item>, index: map<string, int>, query: string, cs: seq<Citation>,
                      ghost trail: seq<Item>)
    returns (out: seq<Item>, after: map<string, int>)
    requires Reflects(env, trail, items, index)
    ensures Reflects(env, trail + Citations(env, query, cs), out, after)
  {
    hide Reflects, KeyOf, CitationItem, Citations;
    out, after := items, index;
    NoCitations(env, query);
    assert trail + [] == trail;
    for c := 0 to |cs|
      invariant Reflects(env, trail + Citations(env, query, cs[..c]), out, after)
    {
      CitationsStep(env, query, cs, c);
      var item := CitationItem(query, cs[c]);
      ghost var before := Citations(env, query, cs[..c]);
      if KeyOf(env, item) != "" {
        Assoc(trail, before, [item]);
        out, after := AddCitation(env, out, after, item, trail + before);
      } else {
        assert before + [] == before;
      }
    }
    assert cs[..|cs|] == cs;
  }

  lemma {:induction false} NoCitations(env: Env, query: string)
    ensures Citations(env, query, []) == []
  {
  }

  lemma {:induction false} CitationsStep(env: Env, query: string, cs: seq<Citation>, c: nat)
    requires c < |cs|
    ensures var item := CitationItem(query, cs[c]);
            Citations(env, query, cs[..c + 1])
            == Citations(env, query, cs[..c]) + if KeyOf(env, item) == "" then [] else [item]
  {
    hide CitationItem, KeyOf;
    assert cs[..c + 1][..c] == cs[..c];
  }

  /** One message that has not been seen before. */
  method AddMessage(env: Env, items: seq<Item>, index: map<string, int>, m: Message, ghost trail: seq<Item>)
    returns (out: seq<Item>, after: map<string, int>)
    requires Reflects(env, trail, items, index)
    ensures Reflects(env, trail + Mentions(env, m), out, after)
  {
    hide Reflects, KeyOf, TrimSpace, QueryFromSearchSummary, Citations;
    var search := ParseSearch(env, m);
    if search.Some? && !search.value.searchFailed && search.value.citations != [] {
      var query := QueryFromSearchSummary(search.value.summary);
      out, after := AddCitations(env, items, index, query, search.value.citations, trail);
      return;
    }
    var extract := ParseExtract(env, m);
    if extract.Some? && extract.value.ok && TrimSpace(extract.value.content) != "" {
      var item := ExtractItem(extract.value);
      if KeyOf(env, item) != "" {
        out, after := AddExtract(env, items, index, item, trail);
        return;
      }
    }
    assert trail + [] == trail;
    out, after := items, index;
  }

  /** The loop over a history: the items reflect everything it mentions. */
  method GatherWebEvidence(env: Env, messages: seq<Message>) returns (items: seq<Item>, index: map<string, int>)
    ensures Reflects(env, Trail(env, messages), items, index)
  {
    hide Fingerprint, Mentions, Reflects, Seen, Trail;
    items, index := [], map[];
    var seen: set<int> := {};
    NothingSeen(env);
    for i := 0 to |messages|
      invariant Reflects(env, Trail(env, messages[..i]), items, index)
      invariant forall f :: f in seen <==> Seen(env, messages[..i], f)
    {
      var m := messages[i];
      TrailStep(env, messages, i);
      SeenStep(env, messages, i);
      var fingerprint := Fingerprint(env, m);
      assert Trail(env, messages[..i]) + [] == Trail(env, messages[..i]);
      if fingerprint.Some? && fingerprint.value in seen {
        continue;
      }
      if fingerprint.Some? {
        seen := seen + {fingerprint.value};
      }
      items, index := AddMessage(env, items, index, m, Trail(env, messages[..i]));
    }
    assert messages[..|messages|] == messages;
  }

  lemma {:induction false} NothingSeen(env: Env)
    ensures forall f :: !Seen(env, [], f)
    ensures Reflects(env, Trail(env, []), [], map[])
  {
  }

  lemma {:induction false} SeenStep(env: Env, ms: seq<Message>, i: nat)
    requires i < |ms|
    ensures forall f :: Seen(env, ms[..i + 1], f) <==> Seen(env, ms[..i], f) || Fingerprint(env, ms[i]) == Some(f)
  {
    hide Fingerprint;
    forall f ensures Seen(env, ms[..i + 1], f) <==> Seen(env, ms[..i], f) || Fingerprint(env, ms[i]) == Some(f) {
      if Seen(env, ms[..i], f) {
        var j :| 0 <= j < i && Fingerprint(env, ms[..i][j]) == Some(f);
        assert ms[..i + 1][j] == ms[..i][j];
      }
      if Fingerprint(env, ms[i]) == Some(f) {
        assert ms[..i + 1][i] == ms[i];
      }
      if Seen(env, ms[..i + 1], f) && Fingerprint(env, ms[i]) != Some(f) {
        var j :| 0 <= j <= i && Fingerprint(env, ms[..i + 1][j]) == Some(f);
        assert ms[..i][j] == ms[..i + 1][j];
      }
    }
  }

  lemma {:induction false} TrailStep(env: Env, ms: seq<Message>, i: nat)
    requires i < |ms|
    ensures Trail(env, ms[..i + 1])
         == Trail(env, ms[..i]) + if Repeated(env, ms[..i], ms[i]) then [] else Mentions(env, ms[i])
  {
    hide Repeated, Mentions;
    assert ms[..i + 1][..i] == ms[..i];
  }

  // ----- Which pages, and what of them -----

  /** The message reports a search that did not fail and whose citation j is of
      this page. */
  predicate Finds(env: Env, m: Message, j: nat, key: string)
  {
    && m.tool == WebSearch && TrimSpace(m.content) != "" && env.search(m.content).Some?
    && var found := env.search(m.content).value;
       !found.searchFailed && j < |found.citations| && env.key(TrimSpace(found.citations[j].url)) == key
  }

  /** The message reports a page that was read, with something on it. */
  predicate Reads(env: Env, m: Message, key: string)
  {
    && m.tool == WebExtract && TrimSpace(m.content) != "" && env.extract(m.content).Some?
    && var page := env.extract(m.content).value;
       page.ok && TrimSpace(page.content) != "" && env.key(TrimSpace(page.url)) == key
  }

  ghost predicate FindsPage(env: Env, m: Message, key: string)
  {
    exists j :: Finds(env, m, j, key)
  }

  /** Message i is not one that was seen before. */
  predicate Fresh(env: Env, ms: seq<Message>, i: nat)
    requires i < |ms|
  {
    !Repeated(env, ms[..i], ms[i])
  }

  /** A result that is there already, call and text alike, adds nothing; one of
      another tool, or of no call, is never taken for one. */
  lemma {:induction false} RepeatsAddNothing(env: Env, ms: seq<Message>, m: Message)
    ensures m in ms && m.tool != NotWeb && m.callId.Some? ==> Trail(env, ms + [m]) == Trail(env, ms)
    ensures m.tool == NotWeb || m.callId == None ==> !Repeated(env, ms, m)
  {
    hide Mentions;
    assert (ms + [m])[..|ms|] == ms;
  }

  lemma {:induction false} LastSkips(env: Env, trail: seq<Item>, more: seq<Item>, key: string, extracts: bool)
    requires forall p | 0 <= p < |more| && KeyOf(env, more[p]) == key :: extracts && more[p].kind != Extract
    ensures Last(env, trail + more, key, extracts) == Last(env, trail, key, extracts)
  {
    hide KeyOf;
    if more == [] {
      assert trail + more == trail;
    } else {
      var n := |more| - 1;
      LastSkips(env, trail, more[..n], key, extracts);
      assert trail + more == (trail + more[..n]) + [more[n]];
      LastGrows(env, trail + more[..n], more[n], key, extracts);
    }
  }

  lemma {:induction false} LastFinds(env: Env, trail: seq<Item>, more: seq<Item>, key: string, extracts: bool, p: nat)
    requires p < |more| && KeyOf(env, more[p]) == key && (extracts ==> more[p].kind == Extract)
    requires forall q | p < q < |more| && KeyOf(env, more[q]) == key :: extracts && more[q].kind != Extract
    ensures Last(env, trail + more, key, extracts) == |trail| + p
    ensures (trail + more)[|trail| + p] == more[p]
  {
    hide KeyOf;
    var front := trail + more[..p];
    LastGrows(env, front, more[p], key, extracts);
    LastSkips(env, front + [more[p]], more[p + 1..], key, extracts);
    assert trail + more == (front + [more[p]]) + more[p + 1..];
  }

  lemma {:induction false} CitationsOf(env: Env, query: string, cs: seq<Citation>, key: string)
    requires forall j | 0 <= j < |cs| :: env.key(TrimSpace(cs[j].url)) != key
    ensures forall p | 0 <= p < |Citations(env, query, cs)| :: KeyOf(env, Citations(env, query, cs)[p]) != key
  {
    hide TrimSpace, Truncate;
    if cs != [] {
      CitationsOf(env, query, cs[..|cs| - 1], key);
    }
  }

  lemma {:induction false} CitationsHaveKeys(env: Env, query: string, cs: seq<Citation>)
    ensures forall p | 0 <= p < |Citations(env, query, cs)| ::
              KeyOf(env, Citations(env, query, cs)[p]) != "" && Citations(env, query, cs)[p].kind == Search
  {
    hide TrimSpace, Truncate;
    if cs != [] {
      CitationsHaveKeys(env, query, cs[..|cs| - 1]);
    }
  }

  /** The last citation of a page is its last mention. */
  lemma {:induction false} LastCitation(env: Env, query: string, cs: seq<Citation>, j: nat, key: string)
    returns (p: nat)
    requires j < |cs| && env.key(TrimSpace(cs[j].url)) == key != ""
    requires forall i | j < i < |cs| :: env.key(TrimSpace(cs[i].url)) != key
    ensures p < |Citations(env, query, cs)| && Citations(env, query, cs)[p] == CitationItem(query, cs[j])
    ensures KeyOf(env, Citations(env, query, cs)[p]) == key
    ensures forall q | p < q < |Citations(env, query, cs)| :: KeyOf(env, Citations(env, query, cs)[q]) != key
  {
    hide TrimSpace, Truncate;
    var n := |cs| - 1;
    if j < n {
      p := LastCitation(env, query, cs[..n], j, key);
    } else {
      p := |Citations(env, query, cs[..n])|;
    }
  }

  lemma {:induction false} HasLast(env: Env, cs: seq<Citation>, j: nat, key: string) returns (i: nat)
    requires j < |cs| && env.key(TrimSpace(cs[j].url)) == key
    ensures i < |cs| && env.key(TrimSpace(cs[i].url)) == key
    ensures forall k | i < k < |cs| :: env.key(TrimSpace(cs[k].url)) != key
    decreases |cs| - j
  {
    hide TrimSpace;
    i := j;
    if k :| j < k < |cs| && env.key(TrimSpace(cs[k].url)) == key {
      i := HasLast(env, cs, k, key);
    }
  }

  /** What one message mentions: the pages it found or read, none without a key,
      and an extract exactly if it read the page. */
  lemma {:induction false} MentionsAre(env: Env, m: Message, key: string)
    ensures (exists p | 0 <= p < |Mentions(env, m)| :: KeyOf(env, Mentions(env, m)[p]) == key)
            <==> key != "" && (Reads(env, m, key) || FindsPage(env, m, key))
    ensures (exists p | 0 <= p < |Mentions(env, m)| ::
              KeyOf(env, Mentions(env, m)[p]) == key && Mentions(env, m)[p].kind == Extract)
            <==> key != "" && Reads(env, m, key)
  {
    hide TrimSpace, Truncate, QueryFromSearchSummary, Citations;
    if m.tool == WebSearch && TrimSpace(m.content) != "" && env.search(m.content).Some? {
      var found := env.search(m.content).value;
      var query := QueryFromSearchSummary(found.summary);
      CitationsHaveKeys(env, query, found.citations);
      if key != "" && FindsPage(env, m, key) {
        var j :| Finds(env, m, j, key);
        var i := HasLast(env, found.citations, j, key);
        var p := LastCitation(env, query, found.citations, i, key);
        assert Mentions(env, m) == Citations(env, query, found.citations);
        assert KeyOf(env, Mentions(env, m)[p]) == key;
      } else if key != "" && !found.searchFailed {
        forall j | 0 <= j < |found.citations| ensures env.key(TrimSpace(found.citations[j].url)) != key {
          assert !Finds(env, m, j, key);
        }
        CitationsOf(env, query, found.citations, key);
      }
    } else if Reads(env, m, key) && key != "" {
      assert Mentions(env, m)[0].kind == Extract;
    }
  }

  lemma {:induction false} TrailEnds(env: Env, ms: seq<Message>)
    requires ms != []
    ensures var n := |ms| - 1;
            Trail(env, ms) == Trail(env, ms[..n]) + if Fresh(env, ms, n) then Mentions(env, ms[n]) else []
  {
    hide Mentions;
  }

  ghost predicate Mentioned(env: Env, ms: seq<Message>, key: string, extracts: bool)
  {
    exists i :: 0 <= i < |ms| && Fresh(env, ms, i)
                && (Reads(env, ms[i], key) || (!extracts && FindsPage(env, ms[i], key)))
  }

  lemma {:induction false} MentionedStep(env: Env, ms: seq<Message>, key: string, extracts: bool)
    requires ms != []
    ensures var n := |ms| - 1;
            Mentioned(env, ms, key, extracts)
            <==> Mentioned(env, ms[..n], key, extracts)
                 || (Fresh(env, ms, n) && (Reads(env, ms[n], key) || (!extracts && FindsPage(env, ms[n], key))))
  {
    hide Reads, FindsPage, Repeated;
    var n := |ms| - 1;
    assert forall i | 0 <= i < n :: ms[..n][i] == ms[i] && ms[..n][..i] == ms[..i];
    if i :| 0 <= i < n && Fresh(env, ms, i)
             && (Reads(env, ms[i], key) || (!extracts && FindsPage(env, ms[i], key))) {
      assert Fresh(env, ms[..n], i);
    }
    if i :| 0 <= i < n && Fresh(env, ms[..n], i)
             && (Reads(env, ms[..n][i], key) || (!extracts && FindsPage(env, ms[..n][i], key))) {
      assert Fresh(env, ms, i);
    }
  }

  /** The trail has a mention of a page exactly if some fresh message found or
      read it, and an extract exactly if one read it. */
  lemma {:induction false} TrailMentions(env: Env, ms: seq<Message>, key: string, extracts: bool)
    ensures Last(env, Trail(env, ms), key, extracts) >= 0 <==> key != "" && Mentioned(env, ms, key, extracts)
  {
    hide Reads, FindsPage, Fresh, Mentions, KeyOf, Mentioned;
    if ms == [] {
      assert !Mentioned(env, ms, key, extracts) by { NothingMentioned(env, key, extracts); }
      assert Trail(env, ms) == [];
    } else {
      var n := |ms| - 1;
      var before, more := Trail(env, ms[..n]), if Fresh(env, ms, n) then Mentions(env, ms[n]) else [];
      TrailMentions(env, ms[..n], key, extracts);
      TrailEnds(env, ms);
      MentionedStep(env, ms, key, extracts);
      MentionsAre(env, ms[n], key);
      if p :| 0 <= p < |more| && KeyOf(env, more[p]) == key && (extracts ==> more[p].kind == Extract) {
        LastIsLater(env, before, more, key, extracts, p);
      } else {
        LastSkips(env, before, more, key, extracts);
      }
    }
  }

  lemma {:induction false} NothingMentioned(env: Env, key: string, extracts: bool)
    ensures !Mentioned(env, [], key, extracts)
  {
  }

  lemma {:induction false} LastIsLater(env: Env, trail: seq<Item>, more: seq<Item>, key: string, extracts: bool, p: nat)
    requires p < |more| && KeyOf(env, more[p]) == key && (extracts ==> more[p].kind == Extract)
    ensures Last(env, trail + more, key, extracts) >= 0
  {
    hide KeyOf;
    var r := Last(env, trail + more, key, extracts);
    assert (trail + more)[|trail| + p] == more[p];
  }

  /** The pages held are those that some result found or read, repeated results
      aside; a page is held as an extract exactly if one read it. */
  lemma {:induction false} PagesAreMentioned(env: Env, ms: seq<Message>, items: seq<Item>, index: map<string, int>,
                                             key: string)
    requires Reflects(env, Trail(env, ms), items, index)
    ensures key in index <==> key != "" && Mentioned(env, ms, key, false)
    ensures key in index ==> (items[index[key]].kind == Extract <==> Mentioned(env, ms, key, true))
  {
    hide KeyOf, Trail, Mentioned, Indexed;
    TrailMentions(env, ms, key, false);
    TrailMentions(env, ms, key, true);
    var trail := Trail(env, ms);
    var r := Last(env, trail, key, false);
    if r >= 0 {
      assert KeyOf(env, trail[r]) == key;
    }
  }

  /** A page that was read is held as its latest reading. */
  lemma {:induction false} LatestReadingIsHeld(env: Env, ms: seq<Message>, items: seq<Item>, index: map<string, int>,
                                               i: nat, key: string)
    requires Reflects(env, Trail(env, ms), items, index)
    requires i < |ms| && key != "" && Fresh(env, ms, i) && Reads(env, ms[i], key)
    requires forall h | i < h < |ms| && Fresh(env, ms, h) :: !Reads(env, ms[h], key)
    ensures key in index
    ensures var page := env.extract(ms[i].content).value;
            items[index[key]] == Item(Extract, "", TrimSpace(page.title), TrimSpace(page.url),
                                      Truncate(page.content, 1200), page.detail)
  {
    hide Fresh, Trail, Indexed, Truncate, TrimSpace, Reads, KeyOf;
    LastReading(env, ms, i, key);
    TrailMentions(env, ms, key, false);
    var r := Last(env, Trail(env, ms), key, true);
    assert KeyOf(env, Trail(env, ms)[r]) == key;
    ChosenIsReading(env, Trail(env, ms), key);
  }

  lemma {:induction false} ChosenIsReading(env: Env, trail: seq<Item>, key: string)
    requires Last(env, trail, key, true) >= 0 && Last(env, trail, key, false) >= 0
    ensures Chosen(env, trail, key) == trail[Last(env, trail, key, true)]
  {
    hide Last;
  }

  lemma {:induction false} LastReading(env: Env, ms: seq<Message>, i: nat, key: string)
    requires i < |ms| && key != "" && Fresh(env, ms, i) && Reads(env, ms[i], key)
    requires forall h | i < h < |ms| && Fresh(env, ms, h) :: !Reads(env, ms[h], key)
    ensures var r := Last(env, Trail(env, ms), key, true);
            r >= 0 && Trail(env, ms)[r] == ExtractItem(env.extract(ms[i].content).value)
  {
    hide TrimSpace, Truncate, QueryFromSearchSummary, Citations, Repeated, ExtractItem, Mentions, Reads, KeyOf;
    var n := |ms| - 1;
    var before := Trail(env, ms[..n]);
    TrailEnds(env, ms);
    if i == n {
      ReadingIsMention(env, ms[n], key);
      LastFinds(env, before, Mentions(env, ms[n]), key, true, 0);
    } else {
      assert forall h | 0 <= h < n :: ms[..n][h] == ms[h] && ms[..n][..h] == ms[..h];
      assert forall h | 0 <= h < n :: Fresh(env, ms[..n], h) == Fresh(env, ms, h);
      LastReading(env, ms[..n], i, key);
      var more := if Fresh(env, ms, n) then Mentions(env, ms[n]) else [];
      MentionsAre(env, ms[n], key);
      LastSkips(env, before, more, key, true);
    }
  }

  lemma {:induction false} ReadingIsMention(env: Env, m: Message, key: string)
    requires key != "" && Reads(env, m, key)
    ensures Mentions(env, m) == [ExtractItem(env.extract(m.content).value)]
    ensures KeyOf(env, Mentions(env, m)[0]) == key && Mentions(env, m)[0].kind == Extract
  {
    hide TrimSpace, Truncate;
  }

  /** A page that was never read is held as its latest citation. */
  lemma {:induction false} LatestCitationIsHeld(env: Env, ms: seq<Message>, items: seq<Item>, index: map<string, int>,
                                                i: nat, j: nat, key: string)
    requires Reflects(env, Trail(env, ms), items, index) && !Mentioned(env, ms, key, true)
    requires i < |ms| && key != "" && Fresh(env, ms, i) && Finds(env, ms[i], j, key)
    requires forall k | k > j :: !Finds(env, ms[i], k, key)
    requires forall h | i < h < |ms| && Fresh(env, ms, h) :: !FindsPage(env, ms[h], key)
    ensures key in index
    ensures var found := env.search(ms[i].content).value;
            var c := found.citations[j];
            items[index[key]] == Item(Search, QueryFromSearchSummary(found.summary), TrimSpace(c.title),
                                      TrimSpace(c.url), Truncate(c.snippet, 700), "")
  {
    hide Fresh, Trail, Indexed, Truncate, Mentioned, FindsPage;
    TrailMentions(env, ms, key, true);
    LastMention(env, ms, i, j, key);
    var r := Last(env, Trail(env, ms), key, false);
    assert KeyOf(env, Trail(env, ms)[r]) == key;
  }

  lemma {:induction false} LastMention(env: Env, ms: seq<Message>, i: nat, j: nat, key: string)
    requires !Mentioned(env, ms, key, true)
    requires i < |ms| && key != "" && Fresh(env, ms, i) && Finds(env, ms[i], j, key)
    requires forall k | k > j :: !Finds(env, ms[i], k, key)
    requires forall h | i < h < |ms| && Fresh(env, ms, h) :: !FindsPage(env, ms[h], key)
    ensures var r, found := Last(env, Trail(env, ms), key, false), env.search(ms[i].content).value;
            r >= 0 && Trail(env, ms)[r] == CitationItem(QueryFromSearchSummary(found.summary), found.citations[j])
  {
    hide TrimSpace, Truncate, QueryFromSearchSummary, Citations, Repeated, CitationItem, FindsPage, Reads, Mentioned,
        Mentions, KeyOf, Finds;
    var n := |ms| - 1;
    var before := Trail(env, ms[..n]);
    TrailEnds(env, ms);
    MentionedStep(env, ms, key, true);
    if i == n {
      var p := FindingIsMention(env, ms[n], j, key);
      LastFinds(env, before, Mentions(env, ms[n]), key, false, p);
    } else {
      assert forall h | 0 <= h < n :: ms[..n][h] == ms[h] && ms[..n][..h] == ms[..h];
      assert forall h | 0 <= h < n :: Fresh(env, ms[..n], h) == Fresh(env, ms, h);
      LastMention(env, ms[..n], i, j, key);
      var more := if Fresh(env, ms, n) then Mentions(env, ms[n]) else [];
      MentionsAre(env, ms[n], key);
      LastSkips(env, before, more, key, false);
    }
  }

  lemma {:induction false} FindingIsMention(env: Env, m: Message, j: nat, key: string) returns (p: nat)
    requires key != "" && Finds(env, m, j, key) && forall k | k > j :: !Finds(env, m, k, key)
    ensures var found := env.search(m.content).value;
            && p < |Mentions(env, m)| && KeyOf(env, Mentions(env, m)[p]) == key
            && Mentions(env, m)[p] == CitationItem(QueryFromSearchSummary(found.summary), found.citations[j])
            && forall q | p < q < |Mentions(env, m)| :: KeyOf(env, Mentions(env, m)[q]) != key
  {
    hide TrimSpace, Truncate, QueryFromSearchSummary, CitationItem, Citations;
    var found := env.search(m.content).value;
    forall k | j < k < |found.citations| ensures env.key(TrimSpace(found.citations[k].url)) != key {
      assert !Finds(env, m, k, key);
    }
    p := LastCitation(env, QueryFromSearchSummary(found.summary), found.citations, j, key);
  }
}
