/** `detect_persuasive_keywords`: whole-word occurrences, in the lower-cased
    text, of every keyword of the persuasion table, counted per category. */
module Detection {
  import opened TextScan
  import opened Keywords

  /** The dictionary `detect_persuasive_keywords` returns. */
  datatype Detection = Detection(totalCount: nat, byCategory: map<string, nat>, wordsFound: seq<Keyword>)

  /** Matches in `t` of the keywords `ks`, one keyword after the other:
      the inner loop's `category_count`. */
  function KeywordCount(t: string, ks: seq<Keyword>): nat
  {
    if ks == [] then 0 else KeywordCount(t, ks[..|ks| - 1]) + |FindAll(t, ks[|ks| - 1])|
  }

  /** The matched words of `ks` in `t`, in the order the inner loop appends them. */
  function KeywordWords(t: string, ks: seq<Keyword>): seq<Keyword>
  {
    if ks == [] then [] else KeywordWords(t, ks[..|ks| - 1]) + FindAll(t, ks[|ks| - 1])
  }

  /** `total_count` after the categories `cats`. */
  function TotalCount(t: string, cats: seq<Category>): nat
  {
    if cats == [] then 0
    else TotalCount(t, cats[..|cats| - 1]) + KeywordCount(t, cats[|cats| - 1].keywords)
  }

  /** `words_found` after the categories `cats`. */
  function WordsFound(t: string, cats: seq<Category>): seq<Keyword>
  {
    if cats == [] then []
    else WordsFound(t, cats[..|cats| - 1]) + KeywordWords(t, cats[|cats| - 1].keywords)
  }

  /** `by_category` after the categories `cats`. */
  function ByCategory(t: string, cats: seq<Category>): map<string, nat>
  {
    if cats == [] then map[]
    else ByCategory(t, cats[..|cats| - 1])[cats[|cats| - 1].name := KeywordCount(t, cats[|cats| - 1].keywords)]
  }

  /** What `detect_persuasive_keywords(text)` returns. */
  function Detect(text: string): Detection
  {
    var t := Lower(text);
    Detection(TotalCount(t, Persuasive), ByCategory(t, Persuasive), WordsFound(t, Persuasive))
  }

  /** The sum of the counts `m` holds for `names`. */
  function SumCounts(m: map<string, nat>, names: seq<string>): nat
    requires forall n :: n in names ==> n in m
  {
    if names == [] then 0 else SumCounts(m, names[..|names| - 1]) + m[names[|names| - 1]]
  }

  /** `by_category` has one key per category of the table, and no other. */
  lemma {:induction false} ByCategoryKeys(t: string, cats: seq<Category>)
    ensures ByCategory(t, cats).Keys == set n | n in Names(cats)
  {
    if cats != [] {
      var p := cats[..|cats| - 1];
      ByCategoryKeys(t, p);
      assert Names(cats) == Names(p) + [cats[|cats| - 1].name];
    }
  }

  /** With distinct names, each category's entry is its own count. */
  lemma {:induction false} ByCategoryAt(t: string, cats: seq<Category>, i: nat)
    requires DistinctNames(cats) && i < |cats|
    ensures cats[i].name in ByCategory(t, cats)
    ensures ByCategory(t, cats)[cats[i].name] == KeywordCount(t, cats[i].keywords)
  {
    var p := cats[..|cats| - 1];
    if i < |cats| - 1 {
      assert DistinctNames(p) by {
        forall a, b | 0 <= a < b < |p| ensures p[a].name != p[b].name {
          assert p[a] == cats[a] && p[b] == cats[b];
        }
      }
      ByCategoryAt(t, p, i);
      assert p[i] == cats[i];
    }
  }

  lemma {:induction false} SumCountsUnchanged(m: map<string, nat>, names: seq<string>, x: string, c: nat)
    requires forall n :: n in names ==> n in m
    requires x !in names
    ensures SumCounts(m[x := c], names) == SumCounts(m, names)
  {
    if names != [] {
      SumCountsUnchanged(m, names[..|names| - 1], x, c);
    }
  }

  /** `total_count` is the sum of the `by_category` counts. */
  lemma {:induction false} TotalIsSumOfCategories(t: string, cats: seq<Category>)
    requires DistinctNames(cats)
    ensures forall n :: n in Names(cats) ==> n in ByCategory(t, cats)
    ensures TotalCount(t, cats) == SumCounts(ByCategory(t, cats), Names(cats))
  {
    ByCategoryKeys(t, cats);
    if cats != [] {
      var p := cats[..|cats| - 1];
      var last := cats[|cats| - 1];
      assert DistinctNames(p) by {
        forall a, b | 0 <= a < b < |p| ensures p[a].name != p[b].name {
          assert p[a] == cats[a] && p[b] == cats[b];
        }
      }
      TotalIsSumOfCategories(t, p);
      ByCategoryKeys(t, p);
      var names := Names(cats);
      assert names[..|names| - 1] == Names(p);
      assert last.name !in Names(p) by {
        forall a | 0 <= a < |p| ensures Names(p)[a] != last.name {
          assert p[a] == cats[a];
        }
      }
      SumCountsUnchanged(ByCategory(t, p), Names(p), last.name, KeywordCount(t, last.keywords));
    }
  }

  lemma {:induction false} KeywordWordsLength(t: string, ks: seq<Keyword>)
    ensures |KeywordWords(t, ks)| == KeywordCount(t, ks)
  {
    if ks != [] {
      KeywordWordsLength(t, ks[..|ks| - 1]);
    }
  }

  /** One word is recorded per counted match. */
  lemma {:induction false} WordsMatchTotal(t: string, cats: seq<Category>)
    ensures |WordsFound(t, cats)| == TotalCount(t, cats)
  {
    if cats != [] {
      WordsMatchTotal(t, cats[..|cats| - 1]);
      KeywordWordsLength(t, cats[|cats| - 1].keywords);
    }
  }

  lemma {:induction false} KeywordWordsAreKeywords(t: string, ks: seq<Keyword>)
    ensures forall w :: w in KeywordWords(t, ks) ==> w in ks
  {
    if ks != [] {
      KeywordWordsAreKeywords(t, ks[..|ks| - 1]);
    }
  }

  /** Every recorded word is a keyword of the table, since matching is literal. */
  lemma {:induction false} WordsAreKeywords(t: string, cats: seq<Category>)
    ensures forall w :: w in WordsFound(t, cats) ==> w in Flatten(cats)
  {
    if cats != [] {
      WordsAreKeywords(t, cats[..|cats| - 1]);
      KeywordWordsAreKeywords(t, cats[|cats| - 1].keywords);
    }
  }

  lemma {:induction false} FindAllMultiplicity(t: string, k: Keyword, w: Keyword)
    ensures multiset(FindAll(t, k))[w] == if k == w then |FindAll(t, k)| else 0
  {
    var r := FindAll(t, k);
    if k == w {
      assert r == seq(|r|, _ => k);
      SameWordMultiplicity(|r|, k);
    } else {
      assert w !in r;
    }
  }

  lemma {:induction false} SameWordMultiplicity(n: nat, k: string)
    ensures multiset(seq(n, _ => k))[k] == n
  {
    if n > 0 {
      SameWordMultiplicity(n - 1, k);
      assert seq(n, _ => k) == seq(n - 1, _ => k) + [k];
    }
  }

  lemma KeywordWordsSnocMultiplicity(t: string, ks: seq<Keyword>, w: Keyword)
    requires ks != []
    ensures multiset(KeywordWords(t, ks))[w] ==
      multiset(KeywordWords(t, ks[..|ks| - 1]))[w] + multiset(FindAll(t, ks[|ks| - 1]))[w]
  {
    assert multiset(KeywordWords(t, ks)) ==
      multiset(KeywordWords(t, ks[..|ks| - 1])) + multiset(FindAll(t, ks[|ks| - 1]));
  }

  lemma SnocMultiplicity(ks: seq<Keyword>, w: Keyword)
    requires ks != []
    ensures multiset(ks)[w] == multiset(ks[..|ks| - 1])[w] + (if ks[|ks| - 1] == w then 1 else 0)
  {
    assert ks == ks[..|ks| - 1] + [ks[|ks| - 1]];
  }

  lemma ScaledStep(x: nat, y: nat, c: nat, a: nat, b: nat, m: nat, same: bool)
    requires x == a * b && y == x + c
    requires c == (if same then a else 0) && m == b + (if same then 1 else 0)
    ensures y == a * m
  {
  }

  lemma {:induction false} KeywordWordsMultiplicity(t: string, ks: seq<Keyword>, w: Keyword)
    ensures multiset(KeywordWords(t, ks))[w] == |FindAll(t, w)| * multiset(ks)[w]
  {
    if ks != [] {
      var p: seq<Keyword>, k: Keyword := ks[..|ks| - 1], ks[|ks| - 1];
      KeywordWordsMultiplicity(t, p, w);
      KeywordWordsSnocMultiplicity(t, ks, w);
      SnocMultiplicity(ks, w);
      FindAllMultiplicity(t, k, w);
      ScaledStep(multiset(KeywordWords(t, p))[w], multiset(KeywordWords(t, ks))[w],
        multiset(FindAll(t, k))[w], |FindAll(t, w)|, multiset(p)[w], multiset(ks)[w], k == w);
    }
  }

  lemma WordsFoundSnocMultiplicity(t: string, cats: seq<Category>, w: Keyword)
    requires cats != []
    ensures multiset(WordsFound(t, cats))[w] ==
      multiset(WordsFound(t, cats[..|cats| - 1]))[w] + multiset(KeywordWords(t, cats[|cats| - 1].keywords))[w]
  {
    assert multiset(WordsFound(t, cats)) ==
      multiset(WordsFound(t, cats[..|cats| - 1])) + multiset(KeywordWords(t, cats[|cats| - 1].keywords));
  }

  lemma Distribute(a: nat, b: nat, c: nat, x: nat, y: nat)
    requires x == a * b + a * c && y == b + c
    ensures x == a * y
  {
  }

  /** A keyword listed in several slots of the table is recorded once per
      slot for each of its matches. */
  lemma {:induction false} WordsMultiplicity(t: string, cats: seq<Category>, w: Keyword)
    ensures multiset(WordsFound(t, cats))[w] == |FindAll(t, w)| * Slots(cats, w)
  {
    if cats != [] {
      var p := cats[..|cats| - 1];
      var ks: seq<Keyword> := cats[|cats| - 1].keywords;
      WordsMultiplicity(t, p, w);
      KeywordWordsMultiplicity(t, ks, w);
      WordsFoundSnocMultiplicity(t, cats, w);
      Distribute(|FindAll(t, w)|, Slots(p, w), multiset(ks)[w], multiset(WordsFound(t, cats))[w], Slots(cats, w));
    }
  }

  /** A category's count includes every match of each of its keywords. */
  lemma {:induction false} KeywordCountIncludes(t: string, ks: seq<Keyword>, k: Keyword)
    requires k in ks
    ensures KeywordCount(t, ks) >= |FindAll(t, k)|
  {
    if ks[|ks| - 1] != k {
      KeywordCountIncludes(t, ks[..|ks| - 1], k);
    }
  }

  /** A keyword's matches count under every category that lists it. */
  lemma CountedUnderCategory(t: string, cats: seq<Category>, i: nat, k: Keyword)
    requires DistinctNames(cats) && i < |cats| && k in cats[i].keywords
    ensures cats[i].name in ByCategory(t, cats)
    ensures ByCategory(t, cats)[cats[i].name] >= |FindAll(t, k)|
  {
    ByCategoryAt(t, cats, i);
    KeywordCountIncludes(t, cats[i].keywords, k);
  }

  /** A keyword listed in the first two categories of a table counts under both. */
  lemma CountedUnderFirstTwo(t: string, cats: seq<Category>, k: Keyword)
    requires DistinctNames(cats) && |cats| >= 2
    requires k in cats[0].keywords && k in cats[1].keywords
    ensures cats[0].name in ByCategory(t, cats) && cats[1].name in ByCategory(t, cats)
    ensures ByCategory(t, cats)[cats[0].name] >= |FindAll(t, k)|
    ensures ByCategory(t, cats)[cats[1].name] >= |FindAll(t, k)|
  {
    CountedUnderCategory(t, cats, 0, k);
    CountedUnderCategory(t, cats, 1, k);
  }

  /** The first two persuasion categories are urgency and scarcity. */
  lemma FirstTwoNames()
    ensures Persuasive[0].name == "urgency" && Persuasive[1].name == "scarcity"
  {
  }

  /** Every 'limited' hit counts under both of the first two categories. */
  lemma LimitedCountedUnderFirstTwo(text: string)
    ensures var t := Lower(text); var m := ByCategory(t, Persuasive);
      Persuasive[0].name in m && Persuasive[1].name in m &&
      m[Persuasive[0].name] >= |FindAll(t, "limited")| && m[Persuasive[1].name] >= |FindAll(t, "limited")|
  {
    TablesWellFormed();
    LimitedOnceInUrgency();
    LimitedOnceInScarcity();
    CountedUnderFirstTwo(Lower(text), Persuasive, "limited");
  }

  /** 'limited' counts under both urgency and scarcity. */
  lemma LimitedCountedUnderBoth(text: string)
    ensures var t := Lower(text); var m := ByCategory(t, Persuasive);
      "urgency" in m && "scarcity" in m &&
      m["urgency"] >= |FindAll(t, "limited")| && m["scarcity"] >= |FindAll(t, "limited")|
  {
    LimitedCountedUnderFirstTwo(text);
    FirstTwoNames();
  }

  /** Each match of 'limited' is recorded twice in `words_found`. */
  lemma LimitedRecordedTwice(text: string)
    ensures multiset(Detect(text).wordsFound)["limited"] == 2 * |FindAll(Lower(text), "limited")|
  {
    WordsMultiplicity(Lower(text), Persuasive, "limited");
    LimitedListedTwice();
  }

  /** The facts about one table that the returned dictionary satisfies. */
  lemma DetectionFacts(t: string, cats: seq<Category>)
    requires DistinctNames(cats)
    ensures ByCategory(t, cats).Keys == set n | n in Names(cats)
    ensures forall n :: n in Names(cats) ==> n in ByCategory(t, cats)
    ensures TotalCount(t, cats) == SumCounts(ByCategory(t, cats), Names(cats))
    ensures |WordsFound(t, cats)| == TotalCount(t, cats)
    ensures forall w :: w in WordsFound(t, cats) ==> w in Flatten(cats)
  {
    ByCategoryKeys(t, cats);
    TotalIsSumOfCategories(t, cats);
    WordsMatchTotal(t, cats);
    WordsAreKeywords(t, cats);
  }

  /** The inner loop of `detect_persuasive_keywords`: the matches of each
      keyword of one category, counted and recorded in keyword order. */
  method ScanKeywords(textLower: string, ks: seq<Keyword>) returns (count: nat, words: seq<Keyword>)
    ensures count == KeywordCount(textLower, ks)
    ensures words == KeywordWords(textLower, ks)
  {
    count := 0;
    words := [];
    for j := 0 to |ks|
      invariant count == KeywordCount(textLower, ks[..j])
      invariant words == KeywordWords(textLower, ks[..j])
    {
      var matches: seq<Keyword> := FindAll(textLower, ks[j]);
      if |matches| > 0 {
        count := count + |matches|;
        words := words + matches;
      }
      assert ks[..j + 1][..j] == ks[..j];
    }
    assert ks[..|ks|] == ks;
  }

  /** The outer loop of `detect_persuasive_keywords` over the categories
      `cats`, on the lower-cased text. */
  method ScanTable(textLower: string, cats: seq<Category>)
    returns (total: nat, byCategory: map<string, nat>, wordsFound: seq<Keyword>)
    ensures total == TotalCount(textLower, cats)
    ensures byCategory == ByCategory(textLower, cats)
    ensures wordsFound == WordsFound(textLower, cats)
  {
    total := 0;
    byCategory := map[];
    wordsFound := [];
    for i := 0 to |cats|
      invariant total == TotalCount(textLower, cats[..i])
      invariant byCategory == ByCategory(textLower, cats[..i])
      invariant wordsFound == WordsFound(textLower, cats[..i])
    {
      var category := cats[i];
      var categoryCount, words := ScanKeywords(textLower, category.keywords);
      wordsFound := wordsFound + words;
      byCategory := byCategory[category.name := categoryCount];
      total := total + categoryCount;
      assert cats[..i + 1][..i] == cats[..i];
    }
    assert cats[..|cats|] == cats;
  }

  /** `detect_persuasive_keywords(text)`. */
  method DetectPersuasiveKeywords(text: string) returns (detected: Detection)
    ensures detected == Detect(text)
    ensures detected.byCategory.Keys == set n | n in PersuasiveNames
    ensures detected.totalCount == SumCounts(detected.byCategory, PersuasiveNames)
    ensures |detected.wordsFound| == detected.totalCount
    ensures forall w :: w in detected.wordsFound ==> w in AllPersuasiveWords
  {
    var textLower := Lower(text);
    var total, byCategory, wordsFound := ScanTable(textLower, Persuasive);
    detected := Detection(total, byCategory, wordsFound);
    TablesWellFormed();
    DetectionFacts(textLower, Persuasive);
  }
}
