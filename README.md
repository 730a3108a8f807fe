# Music recommender core, modelled in Dafny

This project models the decision logic of the `MusicRecommender` class of a
Croatian music recommendation service. The service embeds a free-text query
and searches a vector database of GTZAN tracks. It then re-ranks the hits
according to the query's sentiment, the emojis the user picked and the
instruments the user named. The three modelled parts are:

- `analyze_sentiment`: a first-match rule chain that labels a query
  negative, positive or neutral. It checks Croatian negative keywords
  (case-insensitive substrings) first, then negative emojis, then positive
  emojis, and finally a polarity threshold of ±0.1.
- `recommend`, after the vector search. The steps are:
  - per-hit score adjustments;
  - a cap of two entries per genre, in retrieval order;
  - removal of five genres for negative queries;
  - a fallback to the unadjusted blues/jazz/classical hits when fewer than
    three entries survive;
  - a shuffle, a descending sort by adjusted score, and the cut `[:k]`.
- `add_descriptions`: each catalogue row gets a random template from its
  genre's pool, or `"Glazbena pjesma."` when the genre has no pool.

The project has five modules:

- `Text` models `str.lower` and substring search.
- `Sentiment` holds the classifier.
- `Descriptions` holds the template pools and description assignment.
- `Rerank` holds the specification functions of every step of `recommend`,
  with the lemmas stating what each step guarantees.
- `Recommender` holds the step-by-step procedure that the source runs:
  - the scoring loops;
  - the loop that keeps per-genre counts in a map;
  - the fallback loop;
  - an in-place array sort.

  Each of these is proved against the `Rerank` functions.

The external parts become parameters of the model:

- the text's polarity, which TextBlob computes, is a `real`;
- the vector search result is a sequence of `Hit`s, at most 50 long;
- the draws of `random.choice` are a sequence of pick indices.

`random.shuffle` followed by a stable sort is specified as "some
permutation, sorted non-increasingly". The order among equal scores is left
open.

## Model

| member | source | states |
|---|---|---|
| Text.LowerChar | recommender.py:169 | A–Z and the Latin-1 capitals À–Þ except × move up by 32 code points. Č, Ć, Đ, Š and Ž move up by one. Every other character is unchanged. |
| Text.Lower | recommender.py:232 | Lower-casing keeps the length and maps every character on its own. |
| Text.LowerIdempotent | recommender.py:232 | Lower-casing an already lower-cased string changes nothing. |
| Text.Contains | recommender.py:169 | The substring test is true exactly when the needle occurs at some position of the haystack. |
| Text.ContainsLower | recommender.py:169 | A substring hit survives lower-casing both sides, so keyword matching is case-insensitive. |
| Sentiment.Sentiment.Label | recommender.py:170-187 | The classifier answers one of "negative", "positive" or "neutral". |
| Sentiment.HasNegativeKeyword | recommender.py:168-169 | Rule 1 holds exactly when some negative keyword occurs at some position of the lower-cased text. |
| Sentiment.MentionsAny | recommender.py:172-177 | The emoji rules hold exactly when some entry of the emotion list is one of the listed emojis. |
| Sentiment.AnalyzeSentiment | recommender.py:164-187 | A neutral answer implies polarity within ±0.1. A positive answer implies no negative keyword and no negative emoji. |
| Sentiment.KeywordOverridesEverything | recommender.py:168-170 | A negative keyword in the text gives "negative", whatever the emojis and the polarity. |
| Sentiment.SadWordIsNegative | recommender.py:168-170 | Text containing "tužno" after lower-casing is negative. |
| Sentiment.UpperKeywordsLowerToKeywords | recommender.py:168-169 | Lower-casing each keyword written in capitals ("TUŽNO", "MELANKOLIČNO", …) gives back the keyword. |
| Sentiment.CapitalKeywordIsNegative | recommender.py:168-170 | Text containing any keyword written in capitals, Croatian letters included, is negative. |
| Sentiment.NegativeEmojiBeatsPositive | recommender.py:172-178 | With both 😢 and 😊 in the emotions, the answer is negative. |
| Sentiment.PartyEmojiIsPositive | recommender.py:176-178 | With only 🎉 and no keyword, the answer is positive whatever the polarity. |
| Sentiment.PolarityDecidesOtherwise | recommender.py:180-187 | Without a keyword or listed emoji: positive iff polarity > 0.1, negative iff < -0.1, neutral iff within ±0.1. |
| Sentiment.LabelCharacterisation | recommender.py:164-187 | Both directions: exactly when each label is returned, in terms of the four rules. |
| Descriptions.PoolFor | recommender.py:46-123 | Every pool is non-empty. A label without templates gets the default pool ["Glazbena pjesma."]. |
| Descriptions.Choose | recommender.py:123 | The drawn template is a member of the pool. |
| Descriptions.Describe | recommender.py:122-125 | The row is unchanged. Its description comes from its genre's pool. The English column is a copy. |
| Descriptions.AddDescriptions | recommender.py:45-126 | Rows keep order and contents. Each description is in its genre's pool. The English column copies it. Unknown genres get "Glazbena pjesma.". |
| Descriptions.EveryInPoolAssignmentIsPossible | recommender.py:122-124 | Conversely, every in-pool assignment of templates to rows is produced by some draw sequence. |
| Rerank.SliceStop | recommender.py:281 | `[:k]` keeps at most `k` entries (all when fewer) for k ≥ 0. For k < 0 it drops the last -k. |
| Rerank.SentimentDelta | recommender.py:212-219 | The sentiment delta is 0, 0.8, 1.0 or -2.0. It is 0 for neutral queries. A boost means positive-upbeat or negative-comfort. A penalty means negative-heavy. Conversely, positive-upbeat gets 0.8, negative-comfort gets 1.0 and negative-heavy gets -2.0. |
| Rerank.EmojiMatches | recommender.py:222-228 | A cheerful emoji earns the bonus exactly on cheerful genres. A sad emoji earns it exactly on comfort genres. A cool emoji earns it exactly on cool genres. Any other emoji never earns it. |
| Rerank.InstrumentMatches | recommender.py:231-236 | A guitar name (after lower-casing) earns the bonus exactly on guitar genres. A piano name earns it exactly on piano genres. Any other name never earns it. |
| Rerank.Adjustment | recommender.py:210-238 | The adjustment never falls below the sentiment delta. It equals the delta when no emoji and no instrument matches. |
| Rerank.AdjustmentEmojiSnoc | recommender.py:222-228 | One more emoji raises the adjustment by 0.15 if it matches the genre and leaves it unchanged otherwise. |
| Rerank.AdjustmentInstrumentSnoc | recommender.py:231-236 | One more instrument raises the adjustment by 0.15 if it matches the genre and leaves it unchanged otherwise. |
| Rerank.InstrumentMatchesIgnoresCase | recommender.py:232 | An instrument name matches the same genres whatever its letter case. |
| Rerank.EmojiMatchesBounded | recommender.py:222-228 | Each emoji occurrence earns the bonus at most once. No matching emoji means no bonus. |
| Rerank.InstrumentMatchesBounded | recommender.py:231-236 | Each instrument earns the bonus at most once. No matching instrument means no bonus. |
| Rerank.AdjustmentRange | recommender.py:210-238 | The adjustment lies between the sentiment delta and the delta plus 0.15 per emoji and per instrument. |
| Rerank.CheerfulPopScenario | recommender.py:213-224 | A positive query with 😊 adjusts a pop hit by 0.8 + 0.15. |
| Rerank.InstrumentCaseScenario | recommender.py:215-236 | A negative query naming "KLAVIR" adjusts a jazz hit by 1.0 + 0.15. |
| Rerank.AudioUrl | recommender.py:245 | The audio URL is the prefix "/audio/" followed by the stored file path. |
| Rerank.Project | recommender.py:243-249 | An output entry carries the hit's filename, genre and description, its audio URL and the given score. |
| Rerank.RescoreAll | recommender.py:207-238 | Entry `i` is hit `i` with its base score plus its adjustment. |
| Rerank.SubsequenceCount | recommender.py:253-257 | Deleting entries never raises a genre's count. |
| Rerank.SubMultisetCount | recommender.py:278-281 | A sub-multiset, in any order, never has more entries of a genre. |
| Rerank.Capped | recommender.py:241-250 | Each hit is admitted when fewer than two earlier hits share its genre. The capped list is no longer than the hits and holds only hits. |
| Rerank.CappedCountsAdmissions | recommender.py:241-250 | Equivalently, a hit is admitted exactly when fewer than two earlier admissions share its genre, which is what `genre_counts` counts. |
| Rerank.CappedPerGenre | recommender.py:241-250 | For every genre, the capped list keeps exactly the first two entries of that genre, in order. |
| Rerank.CappedCount | recommender.py:241-250 | After the cap, each genre appears min(2, its count in the hits) times. |
| Rerank.CappedIsSubsequence | recommender.py:241-250 | The cap only deletes entries, so retrieval order is preserved. |
| Rerank.WithoutExcluded | recommender.py:253-257 | The filtered list is no longer than its input. It holds only input entries whose genre is not one of the five excluded. |
| Rerank.WithoutExcludedSpec | recommender.py:253-257 | An entry survives the filter if and only if it is in the list and its genre is not excluded. The result is a subsequence of the list. |
| Rerank.WithoutExcludedCount | recommender.py:253-257 | The filter keeps every entry of a non-excluded genre, as often as it occurs, and drops every entry of an excluded one. |
| Rerank.HitsOfGenres | recommender.py:261-264 | Each hit of a listed genre is kept as often as it occurs, nothing else is kept, and retrieval order is kept. |
| Rerank.ComfortHits | recommender.py:261-264 | Exactly the blues/jazz/classical hits are selected. Each is kept with its multiplicity, in retrieval order. |
| Rerank.BaseProjections | recommender.py:266-275 | One entry per hit, in order, each scored with its unmodified similarity. |
| Rerank.Fallback | recommender.py:260-275 | The fallback has one entry per selected comfort hit, and every entry is of a comfort genre. |
| Rerank.FallbackContents | recommender.py:260-275 | Fallback entries are unadjusted comfort-genre hits, and every such hit is present. Each comfort genre appears as often as in the search result, and other genres never. |
| Rerank.FallbackGenreCount | recommender.py:260-275 | Per-genre count of the fallback: the number of hits of that genre for a comfort genre, zero otherwise. |
| Rerank.FallbackIgnoresCap | recommender.py:260-275 | Three blues hits all enter the fallback, so the two-per-genre cap does not apply there. |
| Rerank.Kept | recommender.py:204-257 | The list after the cap and, for negative queries, the filter is no longer than the hits. For a negative query it holds no excluded genre. |
| Rerank.UsesFallback | recommender.py:260 | Only negative queries fall back. A negative query with fewer than three hits always falls back. |
| Rerank.PreRanking | recommender.py:204-275 | The list that is sorted is never longer than the search result. For non-negative queries it is the capped list. |
| Rerank.PreRankingCap | recommender.py:241-257 | Without fallback, no genre appears more than twice in the list that is sorted. |
| Rerank.PreRankingNegative | recommender.py:253-260 | A negative query that does not fall back keeps at least three entries, none of an excluded genre. |
| Rerank.PreRankingFallback | recommender.py:260-275 | With fallback, the list holds only comfort-genre hits at their base scores and every such hit. It has as many entries of each comfort genre as the search returned. |
| Rerank.TopRanked | recommender.py:277-281 | A top-ranked cut is never longer than the list, nor than `k` when k ≥ 0. |
| Rerank.SortedPrefixIsTopRanked | recommender.py:278-281 | The first `[:k]` entries of any sorted rearrangement are sorted and drawn from the list. Nothing cut off outranks a kept entry. |
| Recommender.AdjustScore | recommender.py:210-236 | The accumulating loops compute exactly the specified adjustment. |
| Recommender.ScoreAndCap | recommender.py:204-250 | The loop with its genre-count map yields the capped list of rescored hits. |
| Recommender.BuildFallback | recommender.py:260-275 | The loop builds exactly the fallback list. |
| Recommender.SortByScoreDescending | recommender.py:278-279 | The in-place sort leaves the array non-increasing and a permutation of its old contents. |
| Recommender.RankTopK | recommender.py:277-281 | Shuffle, sort and cut yield a top-ranked `[:k]` of the list. |
| Recommender.Recommend | recommender.py:190-281 | The answer is a top-ranked `[:k]` of the specified pre-ranking list. It is no longer than the search result, nor than `k` when k ≥ 0. |
| Recommender.RecommendationGuarantees | recommender.py:241-281 | Every possible answer obeys three rules. Without fallback: at most two entries per genre. Negative without fallback: no excluded genre. With fallback: only unadjusted comfort-genre hits. |

## Left out

- The vector database calls are left out: search, collection management and upserts. The search result is a parameter, and its limit of 50 is a precondition of `Recommend`. `index_embeddings` is not part of this model.
- The sentence-embedding model is left out: it is a foreign neural model producing float vectors.
- TextBlob's polarity computation is left out: it is foreign NLP. The polarity is a `real` parameter.
- `random.choice` is modelled by a pick index per row.
- `random.shuffle` is left open: any order among equal scores is allowed. `Recommender.RankTopK` uses one deterministic sort, and its contract promises only what every shuffle shares.
- Scores are exact reals. Floating-point rounding of the 0.15 steps is not modelled.
- Text.Lower: lower-cases only ASCII, the Latin-1 capitals and Č, Ć, Đ, Š, Ž. Python's full Unicode case mapping is not modelled. Every keyword and instrument name in the source is within this range. Capitals outside it do not fold. For example, U+212A KELVIN SIGN lower-cases to `k` in Python, so "\u212ALAVIR" matches `klavir` in the source but not in the model.
- The debug prints are left out, as are `AudioDownloader`, `load_data`, the `__main__` block, the HTTP API, the CSV generator, the indexing script and the plots. They are I/O or presentation without decision logic.
- The `emotions=None` and `instruments=None` defaults are not modelled separately: the model takes the empty sequence, which the source substitutes.
- Text and emoji comparisons are on Unicode code points. Keywords are in composed form, and ❤️ is the two code points U+2764 U+FE0F, as in the source.
