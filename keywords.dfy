/** The two keyword tables of the analyzer: six persuasion categories and
    four emotion axes, each an ordered list of literal lower-case keywords. */
module Keywords {

  /** A keyword is a non-empty literal. */
  type Keyword = k: string | |k| > 0 witness "a"

  /** One entry of a keyword table, in the table's order. */
  datatype Category = Category(name: string, keywords: seq<Keyword>)

  const Urgency: seq<Keyword> := ["now", "today", "limited", "hurry", "fast", "quick", "immediate", "urgent", "deadline", "expires"]
  const Scarcity: seq<Keyword> := ["exclusive", "limited", "rare", "unique", "only", "last chance", "running out", "few left", "scarce"]
  const Authority: seq<Keyword> := ["proven", "certified", "expert", "professional", "guaranteed", "official", "approved", "trusted", "verified"]
  const Emotional: seq<Keyword> := ["amazing", "incredible", "revolutionary", "breakthrough", "stunning", "shocking", "unbelievable", "must-have"]
  const FearTactics: seq<Keyword> := ["risk", "danger", "warning", "threat", "lose", "missing out", "regret", "avoid", "prevent", "protect"]
  const SocialProof: seq<Keyword> := ["popular", "trending", "everyone", "millions", "bestselling", "top-rated", "recommended", "favorite"]

  /** `PERSUASIVE_KEYWORDS`; 'limited' is listed under both urgency and scarcity. */
  const Persuasive: seq<Category> := [
    Category("urgency", Urgency), Category("scarcity", Scarcity), Category("authority", Authority),
    Category("emotional", Emotional), Category("fear", FearTactics), Category("social_proof", SocialProof)
  ]

  const PersuasiveNames: seq<string> := ["urgency", "scarcity", "authority", "emotional", "fear", "social_proof"]

  const Joy: seq<Keyword> := ["happy", "love", "great", "wonderful", "excellent", "amazing", "fantastic", "joy", "delight", "pleasure"]
  const Fear: seq<Keyword> := ["afraid", "scary", "danger", "risk", "threat", "warning", "worried", "anxious", "panic", "terror"]
  const Anger: seq<Keyword> := ["angry", "hate", "furious", "outrage", "disgust", "terrible", "awful", "worst", "horrible", "enraged"]
  const Trust: seq<Keyword> := ["trust", "honest", "reliable", "genuine", "authentic", "sincere", "true", "verified", "proven", "guaranteed"]

  /** `EMOTION_KEYWORDS`. */
  const Emotion: seq<Category> := [Category("joy", Joy), Category("fear", Fear), Category("anger", Anger), Category("trust", Trust)]

  const EmotionNames: seq<string> := ["joy", "fear", "anger", "trust"]

  /** The category names of a table, in order. */
  function Names(cats: seq<Category>): (r: seq<string>)
    ensures |r| == |cats|
    ensures forall i :: 0 <= i < |cats| ==> r[i] == cats[i].name
  {
    seq(|cats|, i requires 0 <= i < |cats| => cats[i].name)
  }

  /** The keywords of a table, category after category
      (`ALL_PERSUASIVE_WORDS` for the persuasion table). */
  function Flatten(cats: seq<Category>): seq<Keyword>
  {
    if cats == [] then [] else Flatten(cats[..|cats| - 1]) + cats[|cats| - 1].keywords
  }

  const AllPersuasiveWords: seq<Keyword> := Flatten(Persuasive)

  /** A keyword occurs in the flattened table exactly when some category lists it. */
  lemma {:induction false} InFlatten(cats: seq<Category>, k: Keyword)
    ensures k in Flatten(cats) <==> exists i :: 0 <= i < |cats| && k in cats[i].keywords
  {
    if cats != [] {
      var p := cats[..|cats| - 1];
      InFlatten(p, k);
      if k in Flatten(cats) && k !in cats[|cats| - 1].keywords {
        var i :| 0 <= i < |p| && k in p[i].keywords;
        assert cats[i] == p[i];
      }
    }
  }

  /** No two categories of a table share a name. */
  predicate DistinctNames(cats: seq<Category>) {
    forall i, j :: 0 <= i < j < |cats| ==> cats[i].name != cats[j].name
  }

  /** Both tables have distinct category names, and the name lists above
      are the tables' names. */
  lemma TablesWellFormed()
    ensures Names(Persuasive) == PersuasiveNames && DistinctNames(Persuasive)
    ensures Names(Emotion) == EmotionNames && DistinctNames(Emotion)
  {
  }

  /** Number of slots of a table that list keyword `k`: 'limited' has two. */
  function Slots(cats: seq<Category>, k: Keyword): nat
  {
    if cats == [] then 0 else Slots(cats[..|cats| - 1], k) + multiset(cats[|cats| - 1].keywords)[k]
  }

  /** A keyword found at exactly one index of a list is listed once. */
  lemma ListedOnce(ks: seq<Keyword>, k: Keyword, i: nat)
    requires i < |ks| && ks[i] == k
    requires forall j | 0 <= j < |ks| && j != i :: ks[j] != k
    ensures multiset(ks)[k] == 1
  {
    assert ks == ks[..i] + [ks[i]] + ks[i + 1..];
    assert k !in ks[..i] by {
      forall j | 0 <= j < i ensures ks[..i][j] != k {
        assert ks[..i][j] == ks[j];
      }
    }
    var tail := ks[i + 1..];
    assert k !in tail by {
      forall j | 0 <= j < |tail| ensures tail[j] != k {
        assert tail[j] == ks[i + 1 + j];
      }
    }
  }

  lemma LimitedOnceInUrgency()
    ensures multiset(Persuasive[0].keywords)["limited"] == 1
  {
    ListedOnce(Urgency, "limited", 2);
  }

  lemma LimitedOnceInScarcity()
    ensures multiset(Persuasive[1].keywords)["limited"] == 1
  {
    ListedOnce(Scarcity, "limited", 1);
  }

  lemma LimitedNotInAuthority()
    ensures "limited" !in Persuasive[2].keywords
  {
  }

  lemma LimitedNotInEmotional()
    ensures "limited" !in Persuasive[3].keywords
  {
  }

  lemma LimitedNotInFear()
    ensures "limited" !in Persuasive[4].keywords
  {
  }

  lemma LimitedNotInSocialProof()
    ensures "limited" !in Persuasive[5].keywords
  {
  }

  /** Slots of a six-category table in which keyword `k` is listed once in
      each of the first two categories and nowhere else. */
  lemma SlotsFirstTwo(cats: seq<Category>, k: Keyword)
    requires |cats| == 6
    requires multiset(cats[0].keywords)[k] == 1 && multiset(cats[1].keywords)[k] == 1
    requires k !in cats[2].keywords && k !in cats[3].keywords
    requires k !in cats[4].keywords && k !in cats[5].keywords
    ensures Slots(cats, k) == 2
  {
    var p := cats;
    assert Slots(p[..1], k) == 1 by { assert p[..1][..0] == []; }
    assert Slots(p[..2], k) == 2 by { assert p[..2][..1] == p[..1]; }
    assert Slots(p[..3], k) == 2 by { assert p[..3][..2] == p[..2]; }
    assert Slots(p[..4], k) == 2 by { assert p[..4][..3] == p[..3]; }
    assert Slots(p[..5], k) == 2 by { assert p[..5][..4] == p[..4]; }
    assert p[..6] == p;
  }

  /** 'limited' fills two slots of the persuasion table: one in urgency, one in scarcity. */
  lemma LimitedListedTwice()
    ensures Slots(Persuasive, "limited") == 2
  {
    LimitedOnceInUrgency();
    LimitedOnceInScarcity();
    LimitedNotInAuthority();
    LimitedNotInEmotional();
    LimitedNotInFear();
    LimitedNotInSocialProof();
    SlotsFirstTwo(Persuasive, "limited");
  }
}
