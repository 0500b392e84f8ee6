# Persuasion analyzer: the scoring pipeline in Dafny

This project models the text-scoring core of a small Flask service that
rates how persuasive a text is and how ethically it persuades (`app.py`).
For one submitted text, the service does the following:

- It looks for whole-word occurrences of the keywords of six persuasion
  categories in the lower-cased text. It counts them per category and in
  total, and records the matched words (`detect_persuasive_keywords`).
- It counts the keywords of four emotion axes: joy, fear, anger and trust.
  It adds a boost chosen by the sentiment polarity, and turns the counts
  into percentages rounded to one decimal place (`analyze_emotions`).
- It computes a persuasion score and an ethical score, and chooses a label
  and a reflection text from them (`calculate_persuasion_score`,
  `calculate_ethical_score`, `get_persuasion_label`,
  `get_ethical_reflection`).
- It wraps every keyword match in an HTML `<span>`. The spans are spliced
  in from the back of the text, in descending order of start
  (`highlight_text`).
- It rejects texts shorter than ten characters once stripped, and
  assembles the JSON response (`analyze`).

The modules follow those steps:

| module | file | models |
|---|---|---|
| `TextScan` | text.dfy | `\w`, `\b`, `str.lower`, `str.strip`, and the scan of `re.findall` / `re.finditer` for a literal whole-word pattern |
| `Rounding` | rounding.dfy | Python's `round` (ties to even), with 0, 1 and 3 decimal places |
| `Keywords` | keywords.dfy | the two keyword tables |
| `Detection` | detection.dfy | `detect_persuasive_keywords` |
| `Emotions` | emotions.dfy | `analyze_emotions` |
| `Scores` | scores.dfy | the two scores, the label and the reflection |
| `Highlight` | highlight.dfy | `highlight_text` |
| `Analyze` | analyze.dfy | validation and the response of `analyze` |

The loops of the source are written as methods. Each method's contract
ties its result to a specification function, and the properties are proved
about those functions. That covers the nested loops of
`detect_persuasive_keywords` and `analyze_emotions`, and the span
collection, sort and splice loop of `highlight_text`. The exception is
`list(set(...))[:10]` in `analyze`: `FirstDistinct` states its size and
distinctness directly, with no specification function.

The counting and collection functions recurse on the last element, so the
invariant of a loop over a list can name the prefix done so far. `ApplyAll`,
`Wrap` and `InsertDesc` recurse on the head instead. The invariant of the
splice loop names the suffix still to apply: `ApplyAll` over that suffix
gives the final text. For `highlight_text` specifically:

- **Splice loop.** It is specified by `ApplyAll`. `Wrap` is an independent
  reference definition: "each segment wrapped in its markup". The two are
  proved equal whenever the spans are pairwise disjoint.
- **Set iteration.** Python gives no order for iterating over a set. The
  methods that iterate one pick the next element with `:|` and return the
  order they chose as a ghost output, and the contracts are stated for
  that order.

## Model

| member | source | states |
|---|---|---|
| TextScan.Lower | app.py:42 | lower-casing keeps the length and maps each character on its own (ASCII letters only) |
| TextScan.BoundaryUnderLower | app.py:185-186 | case folding moves no `\b` boundary, so case-insensitive matching on the text is matching on its lower-cased copy |
| TextScan.LeadingSpaces | app.py:232 | the whitespace run at the front of the text is maximal |
| TextScan.TrailingSpaces | app.py:232 | the whitespace run at the back of the text is maximal |
| TextScan.Strip | app.py:232 | `strip()` removes exactly the leading and the trailing whitespace; the result is empty iff the text is all whitespace |
| TextScan.MatchStartsFromSound | app.py:49-50 | the scan returns only positions where `\b k \b` matches, in increasing order and without overlap |
| TextScan.MatchStartsSound | app.py:49-50 | the matches `re.findall` reports are real matches that do not overlap |
| TextScan.MatchStartsFromCovers | app.py:49-50 | the scan misses no match: every matching position lies inside a reported match |
| TextScan.MatchStartsCover | app.py:49-50 | every position where the pattern matches is inside a match `re.findall` reports |
| TextScan.FindAll | app.py:49-50 | `re.findall` returns one string per match, and each is the keyword itself |
| Rounding.RoundHalfEven | app.py:113 | `round` returns an integer within one half of its argument, the even one on a tie |
| Rounding.RoundHalfEvenUnique | app.py:113 | those two properties determine the result |
| Rounding.RoundHalfEvenMonotone | app.py:136 | rounding preserves order |
| Rounding.RoundHalfEvenShiftEven | app.py:113 | shifting the argument by an even integer shifts the result by that integer |
| Rounding.Round1 | app.py:91 | `round(x, 1)` is within 0.05 of `x` |
| Rounding.Round3 | app.py:238-239 | `round(x, 3)` is within 0.0005 of `x` |
| Rounding.Round1Monotone | app.py:91 | `round(x, 1)` preserves order |
| Rounding.Round3Monotone | app.py:238-239 | `round(x, 3)` preserves order |
| Rounding.Round1Exact | app.py:91 | a value with one decimal place is kept by `round(x, 1)` |
| Rounding.Round3Exact | app.py:238-239 | a value with three decimal places is kept by `round(x, 3)` |
| Keywords.Names | app.py:12-19 | the category names of a table, in table order |
| Keywords.InFlatten | app.py:21-24 | a word is in `ALL_PERSUASIVE_WORDS` iff some category lists it |
| Keywords.TablesWellFormed | app.py:12-34 | both tables have distinct category names, which are the six persuasion names and the four axes |
| Keywords.ListedOnce | app.py:13-14 | a word at exactly one index of a keyword list is listed once |
| Keywords.LimitedOnceInUrgency | app.py:13 | urgency lists 'limited' once |
| Keywords.LimitedOnceInScarcity | app.py:14 | scarcity lists 'limited' once |
| Keywords.LimitedNotInAuthority | app.py:15 | authority does not list 'limited' |
| Keywords.LimitedNotInEmotional | app.py:16 | emotional does not list 'limited' |
| Keywords.LimitedNotInFear | app.py:17 | fear does not list 'limited' |
| Keywords.LimitedNotInSocialProof | app.py:18 | social_proof does not list 'limited' |
| Keywords.SlotsFirstTwo | app.py:12-19 | a word listed once in each of the first two categories and nowhere else fills two slots |
| Keywords.LimitedListedTwice | app.py:12-19 | 'limited' fills exactly two slots of the persuasion table |
| Detection.ByCategoryKeys | app.py:43-55 | `by_category` has exactly one key per category |
| Detection.ByCategoryAt | app.py:45-55 | each category's entry is the count of its own keywords |
| Detection.SumCountsUnchanged | app.py:55-56 | setting a key not among the names leaves their sum unchanged |
| Detection.TotalIsSumOfCategories | app.py:55-56 | `total_count` is the sum of the six category counts |
| Detection.KeywordWordsLength | app.py:51-53 | one word is recorded per counted match within a category |
| Detection.WordsMatchTotal | app.py:51-56 | `len(words_found) == total_count` |
| Detection.KeywordWordsAreKeywords | app.py:47-53 | the words recorded for a category are its keywords |
| Detection.WordsAreKeywords | app.py:45-53 | every entry of `words_found` is a dictionary keyword |
| Detection.FindAllMultiplicity | app.py:50 | the matches of one keyword hold that keyword as many times as it matched, and no other word |
| Detection.SameWordMultiplicity | app.py:50 | a list of `n` copies of a word holds it `n` times |
| Detection.KeywordWordsSnocMultiplicity | app.py:53 | extending `words_found` adds the multiplicities of the new matches |
| Detection.SnocMultiplicity | app.py:47 | appending a word to a list adds one to that word's count |
| Detection.ScaledStep | app.py:52-53 | proof step: the arithmetic step of the multiplicity induction |
| Detection.KeywordWordsMultiplicity | app.py:47-53 | within a category, a word is recorded once per match for each time the category lists it |
| Detection.WordsFoundSnocMultiplicity | app.py:53 | a category's words add their multiplicities to `words_found` |
| Detection.Distribute | app.py:52-53 | proof step: the distributive step of the multiplicity induction |
| Detection.WordsMultiplicity | app.py:45-56 | a keyword is recorded once per match for each slot of the table that lists it |
| Detection.KeywordCountIncludes | app.py:46-52 | a category count includes every match of each of its keywords |
| Detection.CountedUnderCategory | app.py:45-55 | a keyword's matches count under every category that lists it |
| Detection.CountedUnderFirstTwo | app.py:45-55 | a keyword listed in the first two categories counts under both |
| Detection.FirstTwoNames | app.py:13-14 | the first two persuasion categories are urgency and scarcity |
| Detection.LimitedCountedUnderFirstTwo | app.py:13-14 | every 'limited' match counts under both of the first two categories |
| Detection.LimitedCountedUnderBoth | app.py:13-14 | every 'limited' match counts under both urgency and scarcity |
| Detection.LimitedRecordedTwice | app.py:12-19 | `words_found` holds 'limited' twice per match in the text |
| Detection.DetectionFacts | app.py:43-58 | the keys, total, length and content facts hold together for a table with distinct names |
| Detection.ScanKeywords | app.py:46-53 | the inner loop computes the category count and the words it records |
| Detection.ScanTable | app.py:45-56 | the outer loop computes `total_count`, `by_category` and `words_found` |
| Detection.DetectPersuasiveKeywords | app.py:37-58 | the result is the specified detection: exactly the six keys, total equal to their sum, one recorded word per counted match, all of them keywords |
| Emotions.Tally | app.py:69-76 | the tally has exactly the four axes as keys |
| Emotions.Boost | app.py:81-86 | the boost keeps the four keys |
| Emotions.Normalize | app.py:89-92 | normalisation keeps the four keys |
| Emotions.Emotions | app.py:61-93 | `analyze_emotions` returns exactly the keys joy, fear, anger and trust |
| Emotions.TallyAt | app.py:72-76 | each axis holds the hits of its own keywords |
| Emotions.TallyUnnamed | app.py:69 | an axis that no category names stays 0 |
| Emotions.BoostCases | app.py:81-86 | +3 joy and +2 trust above 0.3; +3 anger and +2 fear below -0.3; nothing in between; the total grows by 5 or 0 |
| Emotions.NormalizeZero | app.py:89-92 | with a zero total, all four values stay 0 |
| Emotions.ShareBounds | app.py:91 | each unrounded share lies in [0, 100] |
| Emotions.FractionAtMostOne | app.py:91 | proof step: `v / total` lies in [0, 1] when `0 <= v <= total` |
| Emotions.NormalizeShares | app.py:91 | each value is within 0.05 of `v/total*100` and lies in [0, 100] |
| Emotions.SharesSumTo100 | app.py:89-91 | the unrounded shares sum to exactly 100 |
| Emotions.SumOfQuotients | app.py:91 | proof step: the arithmetic step of that sum |
| Emotions.NormalizedSumNear100 | app.py:89-91 | the rounded percentages sum to 100 give or take 0.2 |
| Emotions.EmotionsBounds | app.py:61-93 | every value is in [0, 100]; with a polarity beyond ±0.3 they sum to 100 ± 0.2 |
| Emotions.NormalizeShareForm | app.py:89-91 | proof step: the shares branch is the comprehension the source writes |
| Emotions.NormalizeZeroForm | app.py:90 | proof step: the zero-total branch keeps the counts |
| Emotions.AddHits | app.py:73-76 | the keyword loop adds the hits to one axis and changes nothing else |
| Emotions.TallySnoc | app.py:72-76 | one more category adds its hits to its axis |
| Emotions.CountAxes | app.py:72-76 | the counting loops compute the tally |
| Emotions.ApplyBoost | app.py:81-86 | the boost block computes the boost |
| Emotions.Percentages | app.py:89-92 | the normalisation block computes the normalised map |
| Emotions.AnalyzeEmotions | app.py:61-93 | the result is `analyze_emotions`'s value, with the four axis keys, each value in [0, 100] |
| Scores.Abs | app.py:104 | `abs` is non-negative and equal to `x` or `-x` |
| Scores.KeywordScore | app.py:108 | the keyword term is at most 50 and at most 8 per keyword; it is exactly 50 iff there are at least 7 keywords |
| Scores.PersuasionScore | app.py:96-113 | the score is at most 100, and at least 0 when subjectivity is not negative |
| Scores.PersuasionScoreCap | app.py:112-113 | the cap applies iff the total is at least 99.5; below it the score is within 0.5 of the total |
| Scores.PersuasionScoreRange | app.py:103-113 | with polarity in [-1, 1] and subjectivity in [0, 1], the score is in [0, 100] and the cap never cuts |
| Scores.PersuasionScoreMonotone | app.py:108-113 | more keywords never lower the score |
| Scores.PersuasionScoreSignBlind | app.py:104 | only the absolute polarity counts |
| Scores.EthicalScore | app.py:116-136 | the score is at least 0, and at most 100 when fear plus anger is not negative |
| Scores.EthicalPenaltyAbove80 | app.py:133-134 | the 15-point penalty applies iff the persuasion score is above 80 |
| Scores.EthicalScoreAntitoneInCount | app.py:130 | more keywords never raise the ethical score |
| Scores.EthicalScoreAntitoneInPersuasion | app.py:133-136 | a higher persuasion score never raises the ethical score |
| Scores.EthicalScoreAntitoneInFearAnger | app.py:126-127 | more fear and anger never raise the ethical score |
| Scores.EthicalScoreFull | app.py:123-136 | no keywords, no fear or anger and persuasion at most 80 give exactly 100 |
| Scores.PersuasionLabel | app.py:156-169 | each label is chosen iff the score is in its tier (upper bounds 20/40/60/80 inclusive) |
| Scores.EthicalReflection | app.py:139-153 | each reflection is chosen iff the ethical score is in its tier (upper bounds 40/60/80 strict) |
| Scores.ReflectionIgnoresOtherInputs | app.py:144-153 | the reflection depends on the ethical score alone |
| Highlight.Take | app.py:213 | `h[:i]` has length `min(i, len(h))` and is a prefix |
| Highlight.Drop | app.py:213 | `h[j:]` has length `max(len(h) - j, 0)` and is a suffix |
| Highlight.SpliceFrame | app.py:213 | a splice inside the string keeps the text before its start and after its end |
| Highlight.ChainTail | app.py:210-213 | proof step: the tail of a chain of spans is a chain |
| Highlight.ApplyAllPrefix | app.py:210-213 | splices that end inside a prefix leave the rest of the text untouched |
| Highlight.ApplyAllIsWrap | app.py:210-213 | the splice loop over a chain wraps each segment in its markup |
| Highlight.InsertDesc | app.py:207 | one insertion step of the sort adds exactly the inserted span |
| Highlight.InsertDescElements | app.py:207 | insertion introduces no other span |
| Highlight.ConsSorted | app.py:207 | proof step: a span placed before a sorted list it does not start after keeps it sorted |
| Highlight.SortedTail | app.py:207 | proof step: the tail of a sorted list is sorted |
| Highlight.InsertDescBounded | app.py:207 | proof step: insertion keeps a common upper bound on the starts |
| Highlight.InsertDescSorted | app.py:207 | insertion keeps the list sorted by descending start |
| Highlight.SortDesc | app.py:207 | the sort returns a permutation sorted by descending start |
| Highlight.InsertDescDisjoint | app.py:207 | insertion keeps spans pairwise disjoint |
| Highlight.SortDescDisjoint | app.py:207 | sorting keeps spans pairwise disjoint |
| Highlight.SortedDisjointIsChain | app.py:206-213 | disjoint spans sorted by descending start are applied back to front |
| Highlight.KeywordSpansOf | app.py:185-192 | one span per match, at the match, of the word's length, with its type and the text's own segment |
| Highlight.KeywordSpansMatch | app.py:185-192 | each span's segment equals the word up to case; the spans of one word do not overlap |
| Highlight.MatchStartsIncreasing | app.py:186 | matches are reported in increasing, non-overlapping order |
| Highlight.PersuasiveSpansOf | app.py:184-192 | every persuasive span is a segment of the text, typed `persuasive` |
| Highlight.CategorySpansOf | app.py:196-204 | every span of a category is a segment of the text, typed with the category |
| Highlight.TableSpansOf | app.py:195-204 | every emotion span is a segment of the text, typed with an axis name |
| Highlight.AllSpansInText | app.py:181-204 | every collected span is a segment of the text |
| Highlight.AllSpansKinds | app.py:181-204 | every span is typed `persuasive` or with an axis name |
| Highlight.AppendKeywordSpans | app.py:186-192 | the `finditer` loop appends exactly the word's spans |
| Highlight.CollectPersuasive | app.py:184-192 | the first loop visits each distinct found word once and collects its spans |
| Highlight.AppendCategorySpans | app.py:196-204 | the keyword loop of a category appends its spans |
| Highlight.CollectTable | app.py:195-204 | the emotion loop appends the spans of the whole table |
| Highlight.ApplyHighlights | app.py:209-213 | the splice loop computes `ApplyAll` |
| Highlight.HighlightText | app.py:172-215 | the result is the splice loop over the sorted spans; with no span it is the text; with disjoint spans it is the text with every match wrapped |
| Highlight.SortDescElements | app.py:207 | sorting introduces no span |
| Highlight.WrapWhenDisjoint | app.py:206-213 | over disjoint spans of the text, the sorted splice loop equals the wrapped text |
| Analyze.RejectedCases | app.py:232-233 | a text is rejected iff its stripped length is under 10; all-whitespace and short texts are rejected |
| Analyze.FirstDistinct | app.py:270 | at most ten distinct found words, `min(10, number of distinct words)` of them |
| Analyze.Round3Within | app.py:238-239 | rounding to three places keeps a value inside bounds on the grid |
| Analyze.Analyze | app.py:223-276 | error iff rejected, with the message; otherwise every response field is the pipeline's value, count is `total_count`, exactly `min(10, number of distinct found words)` distinct found words, ethical score in [0, 100], persuasion score at most 100 (and in [0, 100] for TextBlob's ranges) |

## Left out

- Flask routing, `request.json`, `jsonify`, `render_template`, the `/` route and `app.run` are not modelled. They are HTTP plumbing: `Analyze` takes the `text` field and returns the body or the 400 error as a value.
- TextBlob is not modelled. It is a foreign NLP library, so its polarity and subjectivity are `real` parameters of `AnalyzeEmotions` and `Analyze`.
- Floats are exact reals, and `round` is exact ties-to-even rounding on them. The model does not capture IEEE binary rounding, such as `round(2.675, 2)`.
- JSON number types are not modelled. The zero-total emotion values are integers in Python and reals here.
- A `text` field that is not a string is not modelled. The field is `Option<string>`, where a missing field behaves like the empty string.
- `str.lower`, `\w` and `re.IGNORECASE` follow ASCII only. Unicode case folding (e.g. 'İ', the Kelvin sign) and Unicode word characters are not modelled.
- The order of iteration of `set(...)` is unspecified in Python. The model picks each element with `:|`; the two sets (in `highlight_text` and in `analyze`) are visited independently.
- Analyze.FirstDistinct: it states the size and the distinctness of the ten words, not which ten words are listed, because that depends on the set's order.
- Highlight.HighlightText: for overlapping spans the markup comes out garbled. There its contract gives only the splice-loop value, not well-formed markup, and wrapping is proved only for pairwise disjoint spans. Overlaps happen: 'amazing', 'risk', 'danger', 'threat', 'warning', 'proven', 'verified' and 'guaranteed' are in both tables.
- Highlight.SortDesc: `list.sort` in place is a functional insertion sort here. Its contract states the permutation and the descending order by start; stability (equal starts keep their order) is not proved.
- `text_lower` in `highlight_text` is never used, and neither is the `emotions` parameter; the model takes `emotions` and ignores it.
- Analyze.Analyze: its contract does not restate the keys of `by_category` or the sum of its counts. Those are stated by `Detection.DetectPersuasiveKeywords`, whose result `Analyze` copies.
- Loops whose body is a nested loop are split into one method per loop level. This applies to `ScanKeywords`/`ScanTable`, `AddHits`/`CountAxes` and `AppendKeywordSpans`/`AppendCategorySpans`/`CollectTable`. The split methods take the table as a parameter, and the pipeline calls them with the source's tables.
- The browser front end (gauges, chart, animations) is not part of this model.
