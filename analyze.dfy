/** The `/analyze` endpoint without its HTTP layer: validation of the
    submitted text, the whole scoring pipeline, and the response record.
    TextBlob's polarity and subjectivity for the text are inputs. */
module Analyze {
  import opened TextScan
  import opened Rounding
  import opened Keywords
  import opened Detection
  import opened Emotions
  import opened Scores
  import opened Highlight

  datatype Option<T> = None | Some(value: T)

  /** `sentiment`: both values rounded to three decimal places. */
  datatype Sentiment = Sentiment(polarity: real, subjectivity: real)

  /** `persuasive_keywords` of the response. */
  datatype KeywordSummary = KeywordSummary(count: nat, byCategory: map<string, nat>, wordsFound: seq<Keyword>)

  /** The JSON body of a successful analysis. */
  datatype Response = Response(
    persuasionScore: int,
    persuasionLabel: string,
    ethicalScore: int,
    ethicalReflection: string,
    sentiment: Sentiment,
    emotions: map<string, real>,
    persuasiveKeywords: KeywordSummary,
    highlightedText: string,
    originalText: string)

  /** Either a response, or the 400 error with its message. */
  datatype Reply = Ok(response: Response) | BadRequest(error: string)

  const TooShort := "Please provide at least 10 characters of text."

  /** `not text or len(text.strip()) < 10`, where a missing `text` field
      reads as the empty string. */
  predicate Rejected(text: Option<string>) {
    text.None? || |Strip(text.value)| < 10
  }

  /** A text is rejected exactly when it has fewer than ten characters
      once the surrounding whitespace is gone; in particular every
      all-whitespace text and the empty text are rejected. */
  lemma RejectedCases(text: string)
    ensures Rejected(Some(text)) <==> |Strip(text)| < 10
    ensures (forall i :: 0 <= i < |text| ==> IsSpace(text[i])) ==> Rejected(Some(text))
    ensures |text| < 10 ==> Rejected(Some(text))
  {
  }

  /** `words` without repetitions, in some order. */
  ghost predicate DistinctFrom(r: seq<Keyword>, words: seq<Keyword>) {
    (forall i, j :: 0 <= i < j < |r| ==> r[i] != r[j]) && (forall w :: w in r ==> w in words)
  }

  /** `list(set(words))[:10]`: at most ten distinct found words, as many as
      there are distinct words up to ten, visited in an order chosen here. */
  method FirstDistinct(words: seq<Keyword>) returns (r: seq<Keyword>)
    ensures DistinctFrom(r, words)
    ensures |r| == if |set w | w in words| < 10 then |set w | w in words| else 10
  {
    r := [];
    var remaining := set w | w in words;
    while remaining != {} && |r| < 10
      invariant forall w :: w in remaining ==> w in words && w !in r
      invariant forall i, j :: 0 <= i < j < |r| ==> r[i] != r[j]
      invariant forall w :: w in r ==> w in words
      invariant |remaining| + |r| == |set w | w in words|
      invariant |r| <= 10
      decreases |remaining|
    {
      var w :| w in remaining;
      r := r + [w];
      remaining := remaining - {w};
    }
  }

  /** Rounding to three places keeps a value inside [lo, hi] when both
      bounds lie on the grid of thousandths. */
  lemma Round3Within(x: real, lo: int, hi: int)
    requires lo as real / 1000.0 <= x <= hi as real / 1000.0
    ensures lo as real / 1000.0 <= Round3(x) <= hi as real / 1000.0
  {
    Round3Monotone(lo as real / 1000.0, x);
    Round3Monotone(x, hi as real / 1000.0);
    Round3Exact(lo);
    Round3Exact(hi);
  }

  /** `analyze()` for a request whose `text` field is `text` and whose text
      TextBlob scores with `polarity` and `subjectivity`. The error is
      returned exactly for the rejected texts; otherwise every field of the
      response is the value the pipeline computes, the scores are
      percentages, and `min(10, number of distinct found words)` distinct
      found words are listed. */
  method Analyze(text: Option<string>, polarity: real, subjectivity: real)
    returns (reply: Reply, ghost order: seq<Keyword>)
    ensures reply.BadRequest? <==> Rejected(text)
    ensures reply.BadRequest? ==> reply.error == TooShort
    ensures reply.Ok? ==>
      var t := text.value; var r := reply.response; var d := Detect(t);
      r.originalText == t &&
      r.sentiment == Sentiment(Round3(polarity), Round3(subjectivity)) &&
      r.persuasiveKeywords.count == d.totalCount &&
      r.persuasiveKeywords.byCategory == d.byCategory &&
      r.emotions == Emotions.Emotions(t, polarity) &&
      r.persuasionScore == PersuasionScore(d.totalCount, Round3(polarity), Round3(subjectivity)) &&
      r.ethicalScore == EthicalScore(d.totalCount, r.emotions, r.persuasionScore) &&
      r.persuasionLabel == PersuasionLabel(r.persuasionScore) &&
      r.ethicalReflection == EthicalReflection(r.ethicalScore, r.persuasionScore, r.emotions) &&
      Enumerates(order, d.wordsFound) &&
      r.highlightedText == ApplyAll(t, SortDesc(AllSpans(t, order)))
    ensures reply.Ok? ==>
      var r := reply.response;
      var found := set w | w in Detect(text.value).wordsFound;
      |r.persuasiveKeywords.wordsFound| == (if |found| < 10 then |found| else 10) &&
      DistinctFrom(r.persuasiveKeywords.wordsFound, Detect(text.value).wordsFound) &&
      0 <= r.ethicalScore <= 100 &&
      r.persuasionScore <= 100
    ensures reply.Ok? && -1.0 <= polarity <= 1.0 && 0.0 <= subjectivity <= 1.0 ==>
      0 <= reply.response.persuasionScore <= 100
  {
    if text.None? || |Strip(text.value)| < 10 {
      reply := BadRequest(TooShort);
      order := [];
      return;
    }
    var t := text.value;
    var sentiment := Sentiment(Round3(polarity), Round3(subjectivity));
    var persuasiveData := DetectPersuasiveKeywords(t);
    var emotions := AnalyzeEmotions(t, polarity);
    var persuasionScore := PersuasionScore(persuasiveData.totalCount, sentiment.polarity, sentiment.subjectivity);
    var ethicalScore := EthicalScore(persuasiveData.totalCount, emotions, persuasionScore);
    var persuasionLabel := PersuasionLabel(persuasionScore);
    var ethicalReflection := EthicalReflection(ethicalScore, persuasionScore, emotions);
    var highlightedText;
    highlightedText, order := HighlightText(t, persuasiveData.wordsFound, emotions);
    var wordsFound := FirstDistinct(persuasiveData.wordsFound);
    reply := Ok(Response(
      persuasionScore, persuasionLabel, ethicalScore, ethicalReflection, sentiment, emotions,
      KeywordSummary(persuasiveData.totalCount, persuasiveData.byCategory, wordsFound),
      highlightedText, t));
    assert FearAnger(emotions) >= 0.0 by {
      assert "fear" in Axes && "anger" in Axes;
    }
    if -1.0 <= polarity <= 1.0 && 0.0 <= subjectivity <= 1.0 {
      Round3Within(polarity, -1000, 1000);
      Round3Within(subjectivity, 0, 1000);
      PersuasionScoreRange(persuasiveData.totalCount, sentiment.polarity, sentiment.subjectivity);
    }
  }
}
