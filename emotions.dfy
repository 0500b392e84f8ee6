/** `analyze_emotions`: keyword hits on the four emotion axes, a boost
    chosen by the sentiment polarity, then shares in percent rounded to
    one decimal place. The polarity is an input of the model. */
module Emotions {
  import opened TextScan
  import opened Keywords
  import opened Detection
  import opened Rounding

  /** The four axes, the keys of every tally. */
  const Axes: set<string> := {"joy", "fear", "anger", "trust"}

  /** The tally before any keyword is counted. */
  const ZeroTally: map<string, nat> := map["joy" := 0, "fear" := 0, "anger" := 0, "trust" := 0]

  /** Keyword hits per axis once the categories `cats` are counted; a
      category that names no axis adds nothing (the emotion table has none). */
  function Tally(t: string, cats: seq<Category>): (m: map<string, nat>)
    ensures m.Keys == Axes
  {
    if cats == [] then ZeroTally
    else
      var m := Tally(t, cats[..|cats| - 1]);
      var c := cats[|cats| - 1];
      if c.name in m then m[c.name := m[c.name] + KeywordCount(t, c.keywords)] else m
  }

  /** The polarity boost: joy and trust for a clearly positive text, anger
      and fear for a clearly negative one. */
  function Boost(m: map<string, nat>, polarity: real): (r: map<string, nat>)
    requires m.Keys == Axes
    ensures r.Keys == Axes
  {
    if polarity > 0.3 then m["joy" := m["joy"] + 3]["trust" := m["trust"] + 2]
    else if polarity < -0.3 then m["anger" := m["anger"] + 3]["fear" := m["fear"] + 2]
    else m
  }

  /** `sum(emotions.values())` over the four axes. */
  function Total(m: map<string, nat>): nat
    requires m.Keys == Axes
  {
    m["joy"] + m["fear"] + m["anger"] + m["trust"]
  }

  /** The share of axis `k` in percent, before rounding. */
  function Share(m: map<string, nat>, k: string): real
    requires m.Keys == Axes && k in Axes && Total(m) > 0
  {
    m[k] as real / Total(m) as real * 100.0
  }

  /** The normalisation step: shares rounded to one decimal place, or the
      all-zero tally unchanged when nothing was counted. */
  function Normalize(m: map<string, nat>): (r: map<string, real>)
    requires m.Keys == Axes
    ensures r.Keys == Axes
  {
    var total := Total(m);
    if total > 0 then map k | k in m :: Round1(m[k] as real / total as real * 100.0)
    else map k | k in m :: m[k] as real
  }

  /** What `analyze_emotions(text)` returns when TextBlob reports `polarity`. */
  function Emotions(text: string, polarity: real): (r: map<string, real>)
    ensures r.Keys == Axes
  {
    TablesWellFormed();
    Normalize(Boost(Tally(Lower(text), Emotion), polarity))
  }

  /** With distinct axis names, each axis holds the hits of its own keywords. */
  lemma {:induction false} TallyAt(t: string, cats: seq<Category>, i: nat)
    requires forall j :: 0 <= j < |cats| ==> cats[j].name in Axes
    requires DistinctNames(cats) && i < |cats|
    ensures Tally(t, cats)[cats[i].name] == KeywordCount(t, cats[i].keywords)
  {
    var p := cats[..|cats| - 1];
    if i < |cats| - 1 {
      assert DistinctNames(p) by {
        forall a, b | 0 <= a < b < |p| ensures p[a].name != p[b].name {
          assert p[a] == cats[a] && p[b] == cats[b];
        }
      }
      TallyAt(t, p, i);
      assert p[i] == cats[i];
    } else {
      forall j | 0 <= j < |p| ensures p[j].name != cats[i].name {
        assert p[j] == cats[j];
      }
      TallyUnnamed(t, p, cats[i].name);
    }
  }

  /** An axis that no category names keeps its initial zero. */
  lemma {:induction false} TallyUnnamed(t: string, cats: seq<Category>, k: string)
    requires forall j :: 0 <= j < |cats| ==> cats[j].name in Axes
    requires k in Axes && forall j :: 0 <= j < |cats| ==> cats[j].name != k
    ensures Tally(t, cats)[k] == 0
  {
    if cats != [] {
      TallyUnnamed(t, cats[..|cats| - 1], k);
    }
  }

  /** The boost adds 3 to joy and 2 to trust above polarity 0.3, 3 to anger
      and 2 to fear below -0.3, and nothing in between. */
  lemma BoostCases(m: map<string, nat>, polarity: real)
    requires m.Keys == Axes
    ensures polarity > 0.3 ==> Boost(m, polarity) == m["joy" := m["joy"] + 3]["trust" := m["trust"] + 2]
    ensures polarity < -0.3 ==> Boost(m, polarity) == m["anger" := m["anger"] + 3]["fear" := m["fear"] + 2]
    ensures -0.3 <= polarity <= 0.3 ==> Boost(m, polarity) == m
    ensures Total(Boost(m, polarity)) == Total(m) + (if polarity > 0.3 || polarity < -0.3 then 5 else 0)
  {
  }

  /** With nothing counted and no boost, all four values stay zero. */
  lemma NormalizeZero(m: map<string, nat>)
    requires m.Keys == Axes && Total(m) == 0
    ensures forall k :: k in Axes ==> Normalize(m)[k] == 0.0
  {
  }

  /** Each unrounded share lies between 0 and 100. */
  lemma ShareBounds(m: map<string, nat>, k: string)
    requires m.Keys == Axes && k in Axes && Total(m) > 0
    ensures 0.0 <= Share(m, k) <= 100.0
  {
    FractionAtMostOne(m[k] as real, Total(m) as real);
  }

  lemma FractionAtMostOne(v: real, total: real)
    requires 0.0 <= v <= total && total > 0.0
    ensures 0.0 <= v / total <= 1.0
  {
    var q := v / total;
    assert q * total == v;
    if q > 1.0 {
      assert false;
    }
  }

  /** Otherwise each value is its share rounded to one decimal place, within
      0.05 of the exact share, and between 0 and 100. */
  lemma NormalizeShares(m: map<string, nat>, k: string)
    requires m.Keys == Axes && k in Axes && Total(m) > 0
    ensures -0.05 <= Normalize(m)[k] - Share(m, k) <= 0.05
    ensures 0.0 <= Normalize(m)[k] <= 100.0
  {
    ShareBounds(m, k);
    Round1Monotone(0.0, Share(m, k));
    Round1Monotone(Share(m, k), 100.0);
    Round1Exact(0);
    Round1Exact(1000);
  }

  /** The unrounded shares add up to exactly 100. */
  lemma SharesSumTo100(m: map<string, nat>)
    requires m.Keys == Axes && Total(m) > 0
    ensures Share(m, "joy") + Share(m, "fear") + Share(m, "anger") + Share(m, "trust") == 100.0
  {
    var total := Total(m) as real;
    var j, f, a, t := m["joy"] as real, m["fear"] as real, m["anger"] as real, m["trust"] as real;
    SumOfQuotients(j, f, a, t, total);
  }

  lemma SumOfQuotients(j: real, f: real, a: real, t: real, total: real)
    requires total > 0.0 && j + f + a + t == total
    ensures j / total * 100.0 + f / total * 100.0 + a / total * 100.0 + t / total * 100.0 == 100.0
  {
    assert j / total + f / total + a / total + t / total == (j + f + a + t) / total;
  }

  /** So the rounded percentages add up to 100 give or take 0.2. */
  lemma NormalizedSumNear100(m: map<string, nat>)
    requires m.Keys == Axes && Total(m) > 0
    ensures var r := Normalize(m); 99.8 <= r["joy"] + r["fear"] + r["anger"] + r["trust"] <= 100.2
  {
    SharesSumTo100(m);
    NormalizeShares(m, "joy");
    NormalizeShares(m, "fear");
    NormalizeShares(m, "anger");
    NormalizeShares(m, "trust");
  }

  /** Every value `analyze_emotions` returns is a percentage between 0 and 100,
      and a polarity beyond 0.3 in either direction always yields shares. */
  lemma EmotionsBounds(text: string, polarity: real)
    ensures forall k :: k in Axes ==> 0.0 <= Emotions(text, polarity)[k] <= 100.0
    ensures (polarity > 0.3 || polarity < -0.3) ==>
      var r := Emotions(text, polarity); 99.8 <= r["joy"] + r["fear"] + r["anger"] + r["trust"] <= 100.2
  {
    TablesWellFormed();
    var b := Boost(Tally(Lower(text), Emotion), polarity);
    BoostCases(Tally(Lower(text), Emotion), polarity);
    if Total(b) > 0 {
      forall k | k in Axes ensures 0.0 <= Normalize(b)[k] <= 100.0 {
        NormalizeShares(b, k);
      }
      NormalizedSumNear100(b);
    }
  }

  /** The two forms of the normalisation step, as `analyze_emotions` writes them. */
  lemma NormalizeShareForm(c: map<string, nat>, total: nat)
    requires c.Keys == Axes && total == Total(c) && total > 0
    ensures Normalize(c) == map k | k in c :: Round1(c[k] as real / total as real * 100.0)
  {
  }

  lemma NormalizeZeroForm(c: map<string, nat>)
    requires c.Keys == Axes && Total(c) == 0
    ensures Normalize(c) == map k | k in c :: c[k] as real
  {
  }

  /** The inner counting loop of `analyze_emotions`: every match of the
      keywords `ks` adds one to the entry of `axis`. */
  method AddHits(textLower: string, counts0: map<string, nat>, axis: string, ks: seq<Keyword>)
    returns (counts: map<string, nat>)
    requires axis in counts0
    ensures counts == counts0[axis := counts0[axis] + KeywordCount(textLower, ks)]
  {
    counts := counts0;
    for j := 0 to |ks|
      invariant counts == counts0[axis := counts0[axis] + KeywordCount(textLower, ks[..j])]
    {
      var matches := FindAll(textLower, ks[j]);
      counts := counts[axis := counts[axis] + |matches|];
      assert ks[..j + 1][..j] == ks[..j];
    }
    assert ks[..|ks|] == ks;
  }

  lemma TallySnoc(t: string, cats: seq<Category>, i: nat)
    requires forall j :: 0 <= j < |cats| ==> cats[j].name in Axes
    requires i < |cats|
    ensures var m := Tally(t, cats[..i]);
      Tally(t, cats[..i + 1]) == m[cats[i].name := m[cats[i].name] + KeywordCount(t, cats[i].keywords)]
  {
    assert cats[..i + 1][..i] == cats[..i];
  }

  /** The counting loops of `analyze_emotions`, over a table whose category
      names are axes. */
  method CountAxes(textLower: string, cats: seq<Category>) returns (counts: map<string, nat>)
    requires forall i :: 0 <= i < |cats| ==> cats[i].name in Axes
    ensures counts == Tally(textLower, cats)
  {
    counts := ZeroTally;
    for i := 0 to |cats|
      invariant counts == Tally(textLower, cats[..i])
    {
      var emotion := cats[i];
      counts := AddHits(textLower, counts, emotion.name, emotion.keywords);
      TallySnoc(textLower, cats, i);
    }
    assert cats[..|cats|] == cats;
  }

  /** The boost step of `analyze_emotions`. */
  method ApplyBoost(counts0: map<string, nat>, polarity: real) returns (counts: map<string, nat>)
    requires counts0.Keys == Axes
    ensures counts == Boost(counts0, polarity)
  {
    counts := counts0;
    if polarity > 0.3 {
      counts := counts["joy" := counts["joy"] + 3];
      counts := counts["trust" := counts["trust"] + 2];
    } else if polarity < -0.3 {
      counts := counts["anger" := counts["anger"] + 3];
      counts := counts["fear" := counts["fear"] + 2];
    }
  }

  /** The normalisation step of `analyze_emotions`. */
  method Percentages(counts: map<string, nat>) returns (emotions: map<string, real>)
    requires counts.Keys == Axes
    ensures emotions == Normalize(counts)
  {
    var totalEmotion := counts["joy"] + counts["fear"] + counts["anger"] + counts["trust"];
    if totalEmotion > 0 {
      emotions := map k | k in counts :: Round1(counts[k] as real / totalEmotion as real * 100.0);
      NormalizeShareForm(counts, totalEmotion);
    } else {
      emotions := map k | k in counts :: counts[k] as real;
      NormalizeZeroForm(counts);
    }
  }

  /** `analyze_emotions(text)`, with TextBlob's polarity passed in. */
  method AnalyzeEmotions(text: string, polarity: real) returns (emotions: map<string, real>)
    ensures emotions == Emotions(text, polarity)
    ensures emotions.Keys == Axes
    ensures forall k :: k in Axes ==> 0.0 <= emotions[k] <= 100.0
  {
    TablesWellFormed();
    var textLower := Lower(text);
    var counts := CountAxes(textLower, Emotion);
    counts := ApplyBoost(counts, polarity);
    emotions := Percentages(counts);
    EmotionsBounds(text, polarity);
  }
}
