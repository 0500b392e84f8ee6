/** `highlight_text`: collect the match spans of the found persuasive words
    and of the emotion keywords, sort them by start in descending order,
    and splice a `<span class="highlight-TYPE">word</span>` wrapper into
    the text for each, from the back. Matching ignores ASCII case. */
module Highlight {
  import opened TextScan
  import opened Keywords

  /** One entry of `highlight_map`. */
  datatype Span = Span(start: nat, end: nat, kind: string, word: string)

  /** The CSS class of a span type. */
  function ClassName(kind: string): string {
    "highlight-" + kind
  }

  /** The markup that replaces the matched segment of a span. */
  function Replacement(s: Span): string {
    "<span class=\"" + ClassName(s.kind) + "\">" + s.word + "</span>"
  }

  /** Python's `s[:i]` for a non-negative `i`. */
  function Take(s: string, i: nat): (r: string)
    ensures |r| == if i <= |s| then i else |s|
    ensures r == s[..|r|]
  {
    if i <= |s| then s[..i] else s
  }

  /** Python's `s[j:]` for a non-negative `j`. */
  function Drop(s: string, j: nat): (r: string)
    ensures |r| == if j <= |s| then |s| - j else 0
    ensures r == s[|s| - |r|..]
  {
    if j <= |s| then s[j..] else []
  }

  /** One step of the splice loop: `h[:start] + replacement + h[end:]`. */
  function Splice(h: string, sp: Span): string {
    Take(h, sp.start) + Replacement(sp) + Drop(h, sp.end)
  }

  /** A splice leaves everything in front of its start untouched, and
      everything from its end on when the span lies inside the string. */
  lemma SpliceFrame(h: string, sp: Span)
    requires sp.start <= sp.end <= |h|
    ensures Splice(h, sp) == h[..sp.start] + Replacement(sp) + h[sp.end..]
  {
  }

  /** The splice loop run over `d`, first span first. */
  function ApplyAll(h: string, d: seq<Span>): string
    decreases |d|
  {
    if d == [] then h else ApplyAll(Splice(h, d[0]), d[1..])
  }

  /** Spans in the order the loop applies them, each ending no later than
      the previous one starts; so each splice works on text no earlier
      splice has moved. */
  predicate Chain(d: seq<Span>) {
    (forall i :: 0 <= i < |d| ==> d[i].start <= d[i].end) &&
    (forall i :: 0 < i < |d| ==> d[i].end <= d[i - 1].start)
  }

  /** The text with each segment of a chain of spans wrapped in its markup:
      the reference result of the splice loop. */
  function Wrap(t: string, d: seq<Span>): string
    requires Chain(d) && (d != [] ==> d[0].end <= |t|)
    decreases |d|
  {
    if d == [] then t
    else
      ChainTail(d);
      Wrap(t[..d[0].start], d[1..]) + Replacement(d[0]) + t[d[0].end..]
  }

  lemma ChainTail(d: seq<Span>)
    requires Chain(d) && d != []
    ensures Chain(d[1..])
    ensures |d| > 1 ==> d[1].end <= d[0].start
  {
    forall i | 0 < i < |d[1..]| ensures d[1..][i].end <= d[1..][i - 1].start {
      assert d[1..][i] == d[i + 1] && d[1..][i - 1] == d[i];
    }
  }

  /** Splices of a chain that ends inside `p` never reach the text `q` after it. */
  lemma {:induction false} ApplyAllPrefix(p: string, q: string, d: seq<Span>)
    requires Chain(d) && (d != [] ==> d[0].end <= |p|)
    ensures ApplyAll(p + q, d) == ApplyAll(p, d) + q
    decreases |d|
  {
    if d != [] {
      var s := d[0];
      assert Take(p + q, s.start) == p[..s.start];
      assert Drop(p + q, s.end) == p[s.end..] + q;
      var p' := Splice(p, s);
      assert Splice(p + q, s) == p' + q;
      ChainTail(d);
      ApplyAllPrefix(p', q, d[1..]);
    }
  }

  /** The splice loop over a chain produces the wrapped text. */
  lemma {:induction false} ApplyAllIsWrap(t: string, d: seq<Span>)
    requires Chain(d) && (d != [] ==> d[0].end <= |t|)
    ensures ApplyAll(t, d) == Wrap(t, d)
    decreases |d|
  {
    if d != [] {
      var s := d[0];
      var p, q := t[..s.start], Replacement(s) + t[s.end..];
      SpliceFrame(t, s);
      assert Splice(t, s) == p + q;
      ChainTail(d);
      ApplyAllPrefix(p, q, d[1..]);
      ApplyAllIsWrap(p, d[1..]);
    }
  }

  /** Two spans that share no position. */
  predicate Apart(a: Span, b: Span) {
    a.end <= b.start || b.end <= a.start
  }

  /** No two entries of `d` overlap. */
  predicate Disjoint(d: seq<Span>) {
    forall i, j :: 0 <= i < j < |d| ==> Apart(d[i], d[j])
  }

  /** Sorted by start, largest first. */
  predicate SortedDesc(d: seq<Span>) {
    forall i, j :: 0 <= i < j < |d| ==> d[i].start >= d[j].start
  }

  /** Insert `x` after every entry whose start is not smaller: the step of
      a stable sort by descending start. */
  function InsertDesc(l: seq<Span>, x: Span): (r: seq<Span>)
    ensures multiset(r) == multiset(l) + multiset{x}
  {
    if l == [] then [x]
    else if l[0].start < x.start then [x] + l
    else
      assert l == [l[0]] + l[1..];
      [l[0]] + InsertDesc(l[1..], x)
  }

  lemma InsertDescElements(l: seq<Span>, x: Span, y: Span)
    requires y in InsertDesc(l, x)
    ensures y == x || y in l
  {
    assert y in multiset(InsertDesc(l, x));
  }

  /** A span placed before a sorted list it does not start after keeps it sorted. */
  lemma ConsSorted(h: Span, t: seq<Span>)
    requires SortedDesc(t)
    requires forall j :: 0 <= j < |t| ==> h.start >= t[j].start
    ensures SortedDesc([h] + t)
  {
    var r := [h] + t;
    forall i, j | 0 <= i < j < |r| ensures r[i].start >= r[j].start {
      assert r[j] == t[j - 1];
      if i > 0 {
        assert r[i] == t[i - 1];
      }
    }
  }

  lemma SortedTail(l: seq<Span>)
    requires SortedDesc(l) && l != []
    ensures SortedDesc(l[1..])
  {
    forall i, j | 0 <= i < j < |l[1..]| ensures l[1..][i].start >= l[1..][j].start {
      assert l[1..][i] == l[i + 1] && l[1..][j] == l[j + 1];
    }
  }

  /** Inserting keeps every start at most a bound that all the spans respect. */
  lemma InsertDescBounded(l: seq<Span>, x: Span, b: int)
    requires forall j :: 0 <= j < |l| ==> l[j].start <= b
    requires x.start <= b
    ensures forall j :: 0 <= j < |InsertDesc(l, x)| ==> InsertDesc(l, x)[j].start <= b
  {
    var r := InsertDesc(l, x);
    forall j | 0 <= j < |r| ensures r[j].start <= b {
      InsertDescElements(l, x, r[j]);
      if r[j] != x {
        var k :| 0 <= k < |l| && l[k] == r[j];
      }
    }
  }

  /** Inserting into a sorted list keeps it sorted. */
  lemma {:induction false} InsertDescSorted(l: seq<Span>, x: Span)
    requires SortedDesc(l)
    ensures SortedDesc(InsertDesc(l, x))
  {
    if l != [] && l[0].start < x.start {
      ConsSorted(x, l);
    } else if l != [] {
      SortedTail(l);
      InsertDescSorted(l[1..], x);
      InsertDescBounded(l[1..], x, l[0].start);
      ConsSorted(l[0], InsertDesc(l[1..], x));
    }
  }

  /** `highlight_map.sort(key=lambda x: x['start'], reverse=True)`: a
      permutation of the spans, sorted by descending start. */
  function SortDesc(s: seq<Span>): (r: seq<Span>)
    ensures multiset(r) == multiset(s)
    ensures SortedDesc(r)
  {
    if s == [] then []
    else
      assert s == s[..|s| - 1] + [s[|s| - 1]];
      InsertDescSorted(SortDesc(s[..|s| - 1]), s[|s| - 1]);
      InsertDesc(SortDesc(s[..|s| - 1]), s[|s| - 1])
  }

  /** Inserting a span apart from all others keeps the spans disjoint. */
  lemma {:induction false} InsertDescDisjoint(l: seq<Span>, x: Span)
    requires Disjoint(l) && forall y | y in l :: Apart(x, y)
    ensures Disjoint(InsertDesc(l, x))
  {
    if l != [] && l[0].start >= x.start {
      var rest := InsertDesc(l[1..], x);
      assert Disjoint(l[1..]) by {
        forall i, j | 0 <= i < j < |l[1..]| ensures Apart(l[1..][i], l[1..][j]) {
          assert l[1..][i] == l[i + 1] && l[1..][j] == l[j + 1];
        }
      }
      InsertDescDisjoint(l[1..], x);
      forall y | y in rest ensures Apart(l[0], y) {
        InsertDescElements(l[1..], x, y);
        if y != x {
          var j :| 0 <= j < |l[1..]| && l[1..][j] == y;
          assert l[j + 1] == y && Apart(l[0], l[j + 1]);
        } else {
          assert l[0] in l;
        }
      }
      var r := [l[0]] + rest;
      forall i, j | 0 <= i < j < |r| ensures Apart(r[i], r[j]) {
        if i > 0 {
          assert r[i] == rest[i - 1] && r[j] == rest[j - 1];
        } else {
          assert r[j] == rest[j - 1] && r[j] in rest;
        }
      }
    } else if l != [] {
      var r := [x] + l;
      forall i, j | 0 <= i < j < |r| ensures Apart(r[i], r[j]) {
        if i > 0 {
          assert r[i] == l[i - 1] && r[j] == l[j - 1];
        } else {
          assert r[j] == l[j - 1] && r[j] in l;
        }
      }
    }
  }

  /** Sorting keeps disjoint spans disjoint. */
  lemma {:induction false} SortDescDisjoint(s: seq<Span>)
    requires Disjoint(s)
    ensures Disjoint(SortDesc(s))
  {
    if s != [] {
      var p := s[..|s| - 1];
      var x := s[|s| - 1];
      assert Disjoint(p) by {
        forall i, j | 0 <= i < j < |p| ensures Apart(p[i], p[j]) {
          assert p[i] == s[i] && p[j] == s[j];
        }
      }
      SortDescDisjoint(p);
      forall y | y in SortDesc(p) ensures Apart(x, y) {
        assert y in multiset(SortDesc(p));
        assert y in p;
        var i :| 0 <= i < |p| && p[i] == y;
        assert Apart(s[i], s[|s| - 1]);
      }
      InsertDescDisjoint(SortDesc(p), x);
    }
  }

  /** Disjoint non-empty spans sorted by descending start form a chain. */
  lemma SortedDisjointIsChain(d: seq<Span>)
    requires SortedDesc(d) && Disjoint(d)
    requires forall y | y in d :: y.start < y.end
    ensures Chain(d)
  {
    forall i | 0 < i < |d| ensures d[i].end <= d[i - 1].start {
      assert Apart(d[i - 1], d[i]);
      assert d[i] in d && d[i - 1] in d;
    }
    forall i | 0 <= i < |d| ensures d[i].start <= d[i].end {
      assert d[i] in d;
    }
  }

  /** A span of `text` whose word is the text's own segment. */
  predicate SpanOf(text: string, s: Span) {
    s.start < s.end <= |text| && s.word == text[s.start..s.end]
  }

  /** The spans `pattern.finditer(text)` yields for `\b word \b` with
      `re.IGNORECASE`, each recorded with its type. */
  function KeywordSpans(text: string, word: Keyword, kind: string): seq<Span> {
    var st := MatchStarts(Lower(text), Lower(word));
    MatchStartsSound(Lower(text), Lower(word));
    seq(|st|, a requires 0 <= a < |st| => Span(st[a], st[a] + |word|, kind, text[st[a]..st[a] + |word|]))
  }

  /** One span per match, at the match's position, of the word's length,
      with the requested type, holding the text's own segment. */
  lemma KeywordSpansOf(text: string, word: Keyword, kind: string)
    ensures var r := KeywordSpans(text, word, kind); var st := MatchStarts(Lower(text), Lower(word));
      |r| == |st| &&
      forall a :: 0 <= a < |r| ==>
        r[a].start == st[a] && r[a].end == st[a] + |word| && r[a].kind == kind && SpanOf(text, r[a])
  {
    MatchStartsSound(Lower(text), Lower(word));
  }

  /** Each span of a word covers a segment equal to the word up to ASCII
      case, and the spans of one word follow each other without overlap. */
  lemma KeywordSpansMatch(text: string, word: Keyword, kind: string)
    ensures var r := KeywordSpans(text, word, kind);
      (forall a :: 0 <= a < |r| ==> Lower(r[a].word) == Lower(word)) &&
      (forall a, b :: 0 <= a < b < |r| ==> r[a].end <= r[b].start)
  {
    var r := KeywordSpans(text, word, kind);
    var st := MatchStarts(Lower(text), Lower(word));
    KeywordSpansOf(text, word, kind);
    MatchStartsSound(Lower(text), Lower(word));
    forall a | 0 <= a < |r| ensures Lower(r[a].word) == Lower(word) {
      assert MatchesAt(Lower(text), Lower(word), st[a]);
      assert Lower(r[a].word) == Lower(text)[st[a]..st[a] + |word|];
    }
    forall a, b | 0 <= a < b < |r| ensures r[a].end <= r[b].start {
      MatchStartsIncreasing(Lower(text), Lower(word), 0, a, b);
    }
  }

  lemma {:induction false} MatchStartsIncreasing(s: string, k: string, i: nat, a: nat, b: nat)
    requires |k| > 0 && i <= |s|
    requires a < b < |MatchStartsFrom(s, k, i)|
    ensures MatchStartsFrom(s, k, i)[a] + |k| <= MatchStartsFrom(s, k, i)[b]
    decreases b - a
  {
    var r := MatchStartsFrom(s, k, i);
    MatchStartsFromSound(s, k, i);
    if a + 1 < b {
      MatchStartsIncreasing(s, k, i, a + 1, b);
      assert r[a] + |k| <= r[a + 1];
    }
  }

  /** The persuasive spans, word after word in the order `order` visits them. */
  function PersuasiveSpans(text: string, order: seq<Keyword>): seq<Span> {
    if order == [] then []
    else PersuasiveSpans(text, order[..|order| - 1]) + KeywordSpans(text, order[|order| - 1], "persuasive")
  }

  /** The spans of the keywords `ks` of one category, in list order. */
  function CategorySpans(text: string, ks: seq<Keyword>, kind: string): seq<Span> {
    if ks == [] then []
    else CategorySpans(text, ks[..|ks| - 1], kind) + KeywordSpans(text, ks[|ks| - 1], kind)
  }

  /** The spans of a keyword table, category after category. */
  function TableSpans(text: string, cats: seq<Category>): seq<Span> {
    if cats == [] then []
    else TableSpans(text, cats[..|cats| - 1]) + CategorySpans(text, cats[|cats| - 1].keywords, cats[|cats| - 1].name)
  }

  /** `highlight_map` once both loops have run, for the order in which the
      set of persuasive words was visited. */
  function AllSpans(text: string, order: seq<Keyword>): seq<Span> {
    PersuasiveSpans(text, order) + TableSpans(text, Emotion)
  }

  lemma {:induction false} PersuasiveSpansOf(text: string, order: seq<Keyword>)
    ensures forall y | y in PersuasiveSpans(text, order) :: SpanOf(text, y) && y.kind == "persuasive"
  {
    if order != [] {
      PersuasiveSpansOf(text, order[..|order| - 1]);
      KeywordSpansOf(text, order[|order| - 1], "persuasive");
    }
  }

  lemma {:induction false} CategorySpansOf(text: string, ks: seq<Keyword>, kind: string)
    ensures forall y | y in CategorySpans(text, ks, kind) :: SpanOf(text, y) && y.kind == kind
  {
    if ks != [] {
      CategorySpansOf(text, ks[..|ks| - 1], kind);
      KeywordSpansOf(text, ks[|ks| - 1], kind);
    }
  }

  lemma {:induction false} TableSpansOf(text: string, cats: seq<Category>)
    ensures forall y | y in TableSpans(text, cats) :: SpanOf(text, y) && y.kind in Names(cats)
  {
    if cats != [] {
      var p := cats[..|cats| - 1];
      TableSpansOf(text, p);
      CategorySpansOf(text, cats[|cats| - 1].keywords, cats[|cats| - 1].name);
      forall y | y in TableSpans(text, p) ensures y.kind in Names(cats) {
        var a :| 0 <= a < |p| && Names(p)[a] == y.kind;
        assert Names(cats)[a] == y.kind;
      }
      assert Names(cats)[|cats| - 1] == cats[|cats| - 1].name;
    }
  }

  /** Every collected span is a segment of the text. */
  lemma AllSpansInText(text: string, order: seq<Keyword>)
    ensures forall y | y in AllSpans(text, order) :: SpanOf(text, y)
  {
    PersuasiveSpansOf(text, order);
    TableSpansOf(text, Emotion);
  }

  /** Every collected span is typed `persuasive` or with the name of an
      emotion axis. */
  lemma AllSpansKinds(text: string, order: seq<Keyword>)
    ensures forall y | y in AllSpans(text, order) :: y.kind == "persuasive" || y.kind in EmotionNames
  {
    PersuasiveSpansOf(text, order);
    TableSpansOf(text, Emotion);
    TablesWellFormed();
  }

  /** `order` visits each element of `ws` exactly once: an iteration order
      of `set(ws)`. */
  ghost predicate Enumerates(order: seq<Keyword>, ws: seq<Keyword>) {
    (forall i, j :: 0 <= i < j < |order| ==> order[i] != order[j]) &&
    (forall w :: w in order <==> w in ws)
  }

  /** The innermost loop of `highlight_text`: one span per match of
      `\b word \b` (ignoring case), appended to `acc`. */
  method AppendKeywordSpans(text: string, word: Keyword, kind: string, acc: seq<Span>) returns (highlightMap: seq<Span>)
    ensures highlightMap == acc + KeywordSpans(text, word, kind)
  {
    highlightMap := acc;
    var starts := MatchStarts(Lower(text), Lower(word));
    ghost var spans := KeywordSpans(text, word, kind);
    KeywordSpansOf(text, word, kind);
    for m := 0 to |starts|
      invariant highlightMap == acc + spans[..m]
    {
      assert spans[m].start == starts[m] && SpanOf(text, spans[m]);
      var item := Span(starts[m], starts[m] + |word|, kind, text[starts[m]..starts[m] + |word|]);
      assert item == spans[m];
      highlightMap := highlightMap + [item];
      assert spans[..m + 1] == spans[..m] + [spans[m]];
    }
    assert spans[..|starts|] == spans;
  }

  /** The first loop of `highlight_text`: the spans of each distinct found
      word, visiting the set of words in an order chosen here. */
  method CollectPersuasive(text: string, persuasiveWords: seq<Keyword>)
    returns (highlightMap: seq<Span>, ghost order: seq<Keyword>)
    ensures Enumerates(order, persuasiveWords)
    ensures highlightMap == PersuasiveSpans(text, order)
  {
    highlightMap := [];
    order := [];
    var remaining := set w | w in persuasiveWords;
    while remaining != {}
      invariant forall w :: w in persuasiveWords <==> w in remaining || w in order
      invariant forall w :: w in order ==> w !in remaining
      invariant forall i, j :: 0 <= i < j < |order| ==> order[i] != order[j]
      invariant highlightMap == PersuasiveSpans(text, order)
      decreases |remaining|
    {
      var word :| word in remaining;
      highlightMap := AppendKeywordSpans(text, word, "persuasive", highlightMap);
      assert (order + [word])[..|order|] == order;
      order := order + [word];
      remaining := remaining - {word};
    }
  }

  /** The keyword loop of one category in the second loop of
      `highlight_text`: the spans of each keyword, appended to `acc`. */
  method AppendCategorySpans(text: string, ks: seq<Keyword>, kind: string, acc: seq<Span>) returns (highlightMap: seq<Span>)
    ensures highlightMap == acc + CategorySpans(text, ks, kind)
  {
    highlightMap := acc;
    for j := 0 to |ks|
      invariant highlightMap == acc + CategorySpans(text, ks[..j], kind)
    {
      highlightMap := AppendKeywordSpans(text, ks[j], kind, highlightMap);
      assert ks[..j + 1][..j] == ks[..j] && ks[..j + 1][j] == ks[j];
      assert CategorySpans(text, ks[..j + 1], kind) == CategorySpans(text, ks[..j], kind) + KeywordSpans(text, ks[j], kind);
    }
    assert ks[..|ks|] == ks;
  }

  /** The second loop of `highlight_text`, over a keyword table: the spans
      of every keyword, category after category, appended to `acc`. */
  method CollectTable(text: string, cats: seq<Category>, acc: seq<Span>) returns (highlightMap: seq<Span>)
    ensures highlightMap == acc + TableSpans(text, cats)
  {
    highlightMap := acc;
    for i := 0 to |cats|
      invariant highlightMap == acc + TableSpans(text, cats[..i])
    {
      var emotion := cats[i];
      highlightMap := AppendCategorySpans(text, emotion.keywords, emotion.name, highlightMap);
      assert cats[..i + 1][..i] == cats[..i] && cats[..i + 1][i] == emotion;
      assert TableSpans(text, cats[..i + 1]) == TableSpans(text, cats[..i]) + CategorySpans(text, emotion.keywords, emotion.name);
    }
    assert cats[..|cats|] == cats;
  }

  /** The splice loop of `highlight_text`. */
  method ApplyHighlights(text: string, highlightMap: seq<Span>) returns (highlighted: string)
    ensures highlighted == ApplyAll(text, highlightMap)
  {
    highlighted := text;
    for i := 0 to |highlightMap|
      invariant ApplyAll(highlighted, highlightMap[i..]) == ApplyAll(text, highlightMap)
    {
      var item := highlightMap[i];
      var colorClass := ClassName(item.kind);
      var replacement := "<span class=\"" + colorClass + "\">" + item.word + "</span>";
      assert highlightMap[i..][1..] == highlightMap[i + 1..];
      highlighted := Take(highlighted, item.start) + replacement + Drop(highlighted, item.end);
    }
  }

  /** `result` is `t` with each span of the chain `d` wrapped in its markup. */
  ghost predicate WrapsEach(t: string, d: seq<Span>, result: string) {
    Chain(d) && (d != [] ==> d[0].end <= |t|) && result == Wrap(t, d)
  }

  /** `highlight_text(text, persuasive_words, emotions)`; `emotions` is not
      used. The result is the splice loop over the collected spans sorted
      by descending start; with no spans it is the text itself, and with
      pairwise disjoint spans it is the text with every matched segment
      wrapped in its markup. */
  method HighlightText(text: string, persuasiveWords: seq<Keyword>, emotions: map<string, real>)
    returns (highlighted: string, ghost order: seq<Keyword>)
    ensures Enumerates(order, persuasiveWords)
    ensures highlighted == ApplyAll(text, SortDesc(AllSpans(text, order)))
    ensures AllSpans(text, order) == [] ==> highlighted == text
    ensures Disjoint(AllSpans(text, order)) ==> WrapsEach(text, SortDesc(AllSpans(text, order)), highlighted)
  {
    var highlightMap;
    highlightMap, order := CollectPersuasive(text, persuasiveWords);
    highlightMap := CollectTable(text, Emotion, highlightMap);
    ghost var spans := highlightMap;
    highlightMap := SortDesc(highlightMap);
    highlighted := ApplyHighlights(text, highlightMap);
    AllSpansInText(text, order);
    if Disjoint(spans) {
      WrapWhenDisjoint(text, spans);
    }
  }

  lemma SortDescElements(s: seq<Span>, y: Span)
    requires y in SortDesc(s)
    ensures y in s
  {
    assert y in multiset(SortDesc(s));
  }

  /** The splice loop over disjoint spans of the text, sorted by descending
      start, wraps each of them. */
  lemma WrapWhenDisjoint(text: string, spans: seq<Span>)
    requires forall y | y in spans :: SpanOf(text, y)
    requires Disjoint(spans)
    ensures Chain(SortDesc(spans))
    ensures SortDesc(spans) != [] ==> SortDesc(spans)[0].end <= |text|
    ensures ApplyAll(text, SortDesc(spans)) == Wrap(text, SortDesc(spans))
  {
    var d := SortDesc(spans);
    forall y | y in d ensures SpanOf(text, y) {
      SortDescElements(spans, y);
    }
    SortDescDisjoint(spans);
    SortedDisjointIsChain(d);
    if d != [] {
      assert d[0] in d;
    }
    ApplyAllIsWrap(text, d);
  }
}
