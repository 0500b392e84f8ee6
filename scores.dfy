/** The two scores of the analyzer and the texts chosen from them:
    `calculate_persuasion_score`, `calculate_ethical_score`,
    `get_persuasion_label` and `get_ethical_reflection`. Floats are reals
    and `round` is the exact ties-to-even rounding of module Rounding. */
module Scores {
  import opened Rounding

  function Min(a: int, b: int): int { if a <= b then a else b }
  function Max(a: int, b: int): int { if a >= b then a else b }

  function Abs(x: real): (r: real)
    ensures r >= 0.0 && (r == x || r == -x)
  {
    if x >= 0.0 then x else -x
  }

  /** `dict.get(k, 0)` on the emotion percentages. */
  function Get(m: map<string, real>, k: string): real {
    if k in m then m[k] else 0.0
  }

  /** `min(keyword_count * 8, 50)`: eight points a keyword, at most 50. */
  function KeywordScore(count: nat): (r: nat)
    ensures r <= 50
    ensures r <= count * 8
    ensures r == 50 <==> count >= 7
    ensures count < 7 ==> r == count * 8
  {
    if count * 8 <= 50 then count * 8 else 50
  }

  /** `total_score` before rounding: the keyword term plus 25 points per
      unit of absolute polarity and of subjectivity. */
  function PersuasionTotal(count: nat, polarity: real, subjectivity: real): real {
    KeywordScore(count) as real + Abs(polarity) * 25.0 + subjectivity * 25.0
  }

  /** `calculate_persuasion_score`: the rounded total, capped at 100; it is
      never negative when subjectivity is not. */
  function PersuasionScore(count: nat, polarity: real, subjectivity: real): (r: int)
    ensures r <= 100
    ensures subjectivity >= 0.0 ==> r >= 0
  {
    Min(RoundHalfEven(PersuasionTotal(count, polarity, subjectivity)), 100)
  }

  /** The cap is reached exactly when the total is at least 99.5 (a tie at
      99.5 rounds to the even 100); below it the score is within one half
      of the total. */
  lemma PersuasionScoreCap(count: nat, polarity: real, subjectivity: real)
    ensures var total := PersuasionTotal(count, polarity, subjectivity);
      (PersuasionScore(count, polarity, subjectivity) == 100 <==> total >= 99.5) &&
      (total < 99.5 ==> -0.5 <= total - PersuasionScore(count, polarity, subjectivity) as real <= 0.5)
  {
    var total := PersuasionTotal(count, polarity, subjectivity);
    if total >= 99.5 {
      RoundHalfEvenMonotone(99.5, total);
      RoundHalfEvenUnique(99.5, 100);
    } else {
      RoundHalfEvenMonotone(total, 99.5);
      RoundHalfEvenUnique(99.5, 100);
    }
  }

  /** With TextBlob's ranges (polarity in [-1, 1], subjectivity in [0, 1])
      the score is a percentage, and the cap is never cut below the total. */
  lemma PersuasionScoreRange(count: nat, polarity: real, subjectivity: real)
    requires -1.0 <= polarity <= 1.0 && 0.0 <= subjectivity <= 1.0
    ensures 0 <= PersuasionScore(count, polarity, subjectivity) <= 100
    ensures PersuasionScore(count, polarity, subjectivity) == RoundHalfEven(PersuasionTotal(count, polarity, subjectivity))
  {
    var total := PersuasionTotal(count, polarity, subjectivity);
    assert total <= 100.0;
    RoundHalfEvenMonotone(total, 100.0);
    RoundHalfEvenUnique(100.0, 100);
  }

  /** More keywords never lower the persuasion score. */
  lemma PersuasionScoreMonotone(c1: nat, c2: nat, polarity: real, subjectivity: real)
    requires c1 <= c2
    ensures PersuasionScore(c1, polarity, subjectivity) <= PersuasionScore(c2, polarity, subjectivity)
  {
    RoundHalfEvenMonotone(PersuasionTotal(c1, polarity, subjectivity), PersuasionTotal(c2, polarity, subjectivity));
  }

  /** Only the strength of the sentiment counts, not its sign. */
  lemma PersuasionScoreSignBlind(count: nat, polarity: real, subjectivity: real)
    ensures PersuasionScore(count, polarity, subjectivity) == PersuasionScore(count, -polarity, subjectivity)
  {
  }

  /** `emotions.get('fear', 0) + emotions.get('anger', 0)`. */
  function FearAnger(emotions: map<string, real>): real {
    Get(emotions, "fear") + Get(emotions, "anger")
  }

  /** `ethical_score` before rounding: 100, less 0.3 per point of fear and
      anger, less 2 per keyword, less 15 above a persuasion score of 80. */
  function EthicalTotal(count: nat, emotions: map<string, real>, persuasion: int): real {
    100.0 - FearAnger(emotions) * 0.3 - (count * 2) as real - (if persuasion > 80 then 15.0 else 0.0)
  }

  /** `calculate_ethical_score`: the rounded total, floored at 0; at most
      100 when the fear and anger percentages are not negative. */
  function EthicalScore(count: nat, emotions: map<string, real>, persuasion: int): (r: int)
    ensures r >= 0
    ensures FearAnger(emotions) >= 0.0 ==> r <= 100
  {
    Max(RoundHalfEven(EthicalTotal(count, emotions, persuasion)), 0)
  }

  /** The 15-point penalty is taken exactly when the persuasion score is above 80. */
  lemma EthicalPenaltyAbove80(count: nat, emotions: map<string, real>, persuasion: int)
    ensures persuasion > 80 <==> EthicalTotal(count, emotions, persuasion) == EthicalTotal(count, emotions, 0) - 15.0
    ensures persuasion <= 80 <==> EthicalTotal(count, emotions, persuasion) == EthicalTotal(count, emotions, 0)
  {
  }

  /** More keywords never raise the ethical score. */
  lemma EthicalScoreAntitoneInCount(c1: nat, c2: nat, emotions: map<string, real>, persuasion: int)
    requires c1 <= c2
    ensures EthicalScore(c2, emotions, persuasion) <= EthicalScore(c1, emotions, persuasion)
  {
    RoundHalfEvenMonotone(EthicalTotal(c2, emotions, persuasion), EthicalTotal(c1, emotions, persuasion));
  }

  /** A higher persuasion score never raises the ethical score. */
  lemma EthicalScoreAntitoneInPersuasion(count: nat, emotions: map<string, real>, p1: int, p2: int)
    requires p1 <= p2
    ensures EthicalScore(count, emotions, p2) <= EthicalScore(count, emotions, p1)
  {
    RoundHalfEvenMonotone(EthicalTotal(count, emotions, p2), EthicalTotal(count, emotions, p1));
  }

  /** More fear and anger never raise the ethical score. */
  lemma EthicalScoreAntitoneInFearAnger(count: nat, e1: map<string, real>, e2: map<string, real>, persuasion: int)
    requires FearAnger(e1) <= FearAnger(e2)
    ensures EthicalScore(count, e2, persuasion) <= EthicalScore(count, e1, persuasion)
  {
    RoundHalfEvenMonotone(EthicalTotal(count, e2, persuasion), EthicalTotal(count, e1, persuasion));
  }

  /** A text with no keywords, no fear or anger and a persuasion score of at
      most 80 keeps the full 100. */
  lemma EthicalScoreFull(emotions: map<string, real>, persuasion: int)
    requires FearAnger(emotions) == 0.0 && persuasion <= 80
    ensures EthicalScore(0, emotions, persuasion) == 100
  {
    RoundHalfEvenUnique(100.0, 100);
  }

  const BarelyConvincing := "Barely convincing — like a cat selling cucumbers."
  const GentleNudge := "Gentle nudge — informative, not insistent."
  const ModeratePersuasion := "Moderate persuasion — getting your attention."
  const StrongPitch := "Strong pitch — the influencer's secret sauce."
  const PeakPersuasion := "Peak persuasion — your neurons just signed up."

  /** `get_persuasion_label`: five tiers with inclusive upper bounds 20, 40, 60 and 80. */
  function PersuasionLabel(score: int): (r: string)
    ensures r == BarelyConvincing <==> score <= 20
    ensures r == GentleNudge <==> 20 < score <= 40
    ensures r == ModeratePersuasion <==> 40 < score <= 60
    ensures r == StrongPitch <==> 60 < score <= 80
    ensures r == PeakPersuasion <==> 80 < score
  {
    if score <= 20 then BarelyConvincing
    else if score <= 40 then GentleNudge
    else if score <= 60 then ModeratePersuasion
    else if score <= 80 then StrongPitch
    else PeakPersuasion
  }

  const ArchitectureOfDeceit := "Persuasion is an art — but when art forgets honesty, it becomes architecture of deceit. This content sways hearts more than minds, weaponizing emotion rather than inviting reason."
  const Tightrope := "This message walks the tightrope between influence and manipulation. The intent may be pure, but the methods lean on psychological pressure. Consider: what remains when urgency fades?"
  const Balanced := "A balanced approach to persuasion — using emotion and logic in harmony. The message has clear intent, but respects the reader's autonomy to choose freely."
  const Exemplary := "This content exemplifies ethical communication: informative, respectful, and transparent. It invites consideration without coercion — persuasion at its most honorable."

  /** `get_ethical_reflection`: four tiers with strict upper bounds 40, 60 and 80. */
  function EthicalReflection(ethical: int, persuasion: int, emotions: map<string, real>): (r: string)
    ensures r == ArchitectureOfDeceit <==> ethical < 40
    ensures r == Tightrope <==> 40 <= ethical < 60
    ensures r == Balanced <==> 60 <= ethical < 80
    ensures r == Exemplary <==> 80 <= ethical
  {
    var fearAnger := FearAnger(emotions);
    if ethical < 40 then ArchitectureOfDeceit
    else if ethical < 60 then Tightrope
    else if ethical < 80 then Balanced
    else Exemplary
  }

  /** The reflection depends on the ethical score alone: the persuasion
      score and the fear and anger sum it is given are not used. */
  lemma ReflectionIgnoresOtherInputs(ethical: int, p1: int, p2: int, e1: map<string, real>, e2: map<string, real>)
    ensures EthicalReflection(ethical, p1, e1) == EthicalReflection(ethical, p2, e2)
  {
  }
}
