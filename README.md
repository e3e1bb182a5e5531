# Gold market sentiment score — Dafny model

This project models the scoring core of a gold (XAUUSD) market-sentiment analyzer. The analyzer produces one score in [-1, 1] each run. It does this in five steps:

1. Filter and de-duplicate recent, relevant news headlines from several RSS feeds.
2. Score each kept headline with a sentiment analyzer whose lexicon has a gold-specific phrase table laid over it, then average the scores.
3. Map three market indicators into [-1, 1]: the dollar index (DX-Y.NYB), the ten-year Treasury yield (^TNX) and the volatility index (^VIX).
4. Blend the four signals with fixed weights (news 0.60, dollar 0.20, yield 0.10, VIX 0.10), clamp the blend, and label it with a market bias.
5. Hand the score to the output.

Modules, one per component:

- `Common` (common.dfy): `Option` and the clamp to [-1, 1].
- `Text` (text.dfy): ASCII lower-casing, and substring search with its correctness lemma.
- `Config` (config.dfy): feeds, keywords, tickers, recency window, weights and the gold lexicon, with the same values as the source.
- `Lexicon` (lexicon.dfy): the lexicon overlay. The `Analyzer` class holds the lexicon field and updates it in place.
- `Dedup` (dedup.dfy): the de-duplication rule on its own. `FirstOfEach` keeps each element that passes a test and whose identity was not seen before, and records that identity only once the element has passed. It is stated for any element type, test and identity.
  - Its lemmas state the filter's properties: subsequence, soundness, distinct identities, exactly which identities are kept, that failing elements have no effect, and how filtering splits over concatenation.
- `Headlines` (headlines.dfy): the headline filter.
  - `Select` is the specification of the filter. It is `FirstOfEach` with the recency and keyword test and the lower-cased title as identity.
  - `ConsiderEntry`, `ScanFeed` and `FilterHeadlines` are the body and the two nested loops of the source, written as imperative methods and proved equal to `Select`.
- `Sentiment` (sentiment.dfy): the news average, its bounds, and `fetch_news_sentiment` as a method.
- `Indicators` (indicators.dfy): the dollar, yield and VIX signals.
- `Aggregator` (aggregator.dfy): the weighted sum, the clamp, the bias chain, and `calculate_market_context` as a method.

Arithmetic is over `real`. The network, the clock and the sentiment analyzer's own scoring are parameters:

- `fetch` gives one feed's entries, or `None` when the fetch raised.
- `history` gives a ticker's closing prices, or `None`.
- `now` is the current time, in seconds.
- `polarity(lexicon, text)` is the analyzer's compound score.

Where a bound on the compound score is needed, it is the hypothesis `BoundedPolarity`: every compound score lies in [-1, 1].

Two boundary cases of the comparison chains, as the code computes them:

- The bias chain tests `> -0.2` and then `> -0.5`, so a score of exactly -0.2 is bearish and one of exactly -0.5 is strongly bearish.
- A VIX close of exactly 12.0 fails `< 12` and then passes `< 15`, so it gives -0.1.

## Model

| member | source | states |
|---|---|---|
| Common.Clamp | update_sentiment.py:269 | the result lies in [-1, 1]; it is the input itself inside [-1, 1], 1 above and -1 below |
| Common.ClampIdempotent | update_sentiment.py:269 | clamping twice is the same as clamping once |
| Common.ClampMonotone | update_sentiment.py:269 | the clamp preserves order |
| Config.WeightsSumToOne | update_sentiment.py:41-46 | the four weights are non-negative and sum to exactly 1.0 |
| Config.KeywordsNonEmpty | update_sentiment.py:23-35 | no relevance keyword is the empty string |
| Text.Lower | update_sentiment.py:103 | the title lower-cased character by character (ASCII letters only) |
| Text.LowerChar | update_sentiment.py:103 | the result is never an upper-case ASCII letter; other characters are unchanged; an upper-case letter moves by 32 code points |
| Text.LowerAt | update_sentiment.py:103 | lower-casing keeps the length and maps each character independently |
| Text.LowerIdempotent | update_sentiment.py:103 | lower-casing an already lower-cased title changes nothing |
| Text.Contains | update_sentiment.py:113 | the substring test `kw in title_lower`, scanning the title from the front |
| Text.ContainsIff | update_sentiment.py:113 | the substring test `kw in title_lower` holds exactly when the keyword occurs at some index of the title |
| Text.NothingInEmpty | update_sentiment.py:102-113 | a missing title defaults to "", which contains no non-empty keyword |
| Lexicon.Overlay | update_sentiment.py:88-89 | the merged keys are the union of both tables; every gold-lexicon key maps to its gold value; every other base key keeps its base value |
| Lexicon.OverlayIdempotent | update_sentiment.py:89 | applying the same update twice equals applying it once |
| Lexicon.Analyzer.constructor | update_sentiment.py:88 | a new analyzer holds the base lexicon |
| Lexicon.Analyzer.UpdateLexicon | update_sentiment.py:89 | the lexicon field becomes the old lexicon overlaid in place with the domain table, per key as in Overlay |
| Headlines.TitleOf | update_sentiment.py:102 | an entry's title, or the empty string when it has none |
| Headlines.PubDate | update_sentiment.py:106 | the entry's published date if it has one, otherwise its updated date, otherwise none |
| Headlines.IsRecent | update_sentiment.py:107-110 | an entry is stale only when it has a date and that date is strictly before the cutoff; an undated entry is never stale |
| Headlines.IsRelevant | update_sentiment.py:113 | the lower-cased title contains at least one of the keywords as a substring |
| Headlines.RecentWithinTwoHours | update_sentiment.py:91-110 | with the cutoff of a run at `now`, an entry passes the recency test exactly when it is undated or dated at most 7200 s (2 hours) before `now`; one exactly 7200 s old is kept |
| Headlines.EntriesOf | update_sentiment.py:95-133 | a fetched feed contributes its entries and a feed whose fetch raised contributes none |
| Dedup.FirstOfEach | update_sentiment.py:101-119 | the de-duplication rule: an element is kept when it passes the test and its identity is unseen, and only then is its identity recorded |
| Headlines.Select | update_sentiment.py:101-119 | the filter: `FirstOfEach` with the recency and keyword test and the lower-cased title as identity, starting from the titles already seen |
| Headlines.ScoreAll | update_sentiment.py:122-123 | one headline per kept entry, in order: the original title with the score of that title |
| Dedup.Filter | update_sentiment.py:106-114 | every element of the result passes the test (for headlines: the recency and keyword checks) |
| Dedup.FirstOfEachIsSubsequence | update_sentiment.py:101-124 | the kept entries are a subsequence of the input: nothing is added and input order is kept |
| Headlines.SelectSound | update_sentiment.py:106-119 | every kept entry passes recency (a dated entry is not before the cutoff) and relevance, and its title was not already seen |
| Dedup.FirstOfEachDistinct | update_sentiment.py:116-119 | no two kept entries have the same identity (for headlines: equal lower-cased titles) |
| Dedup.FirstOfEachKeys | update_sentiment.py:106-119 | the set of kept identities (lower-cased titles) equals the set of identities of the passing entries, minus those already seen |
| Dedup.FirstOfEachIgnoresFailing | update_sentiment.py:106-119 | dropping the entries that fail recency or relevance does not change the result, so a stale copy never blocks a later fresh copy |
| Dedup.FirstOfEachCons | update_sentiment.py:101-119 | one step of the filter: a passing entry with an unseen title is kept and its title marked seen; otherwise it is skipped and nothing changes |
| Dedup.FirstOfEachAppend | update_sentiment.py:95-124 | filtering two runs of entries in a row equals filtering the first, then the second starting from the titles the first kept |
| Dedup.FirstOfEachKeepsFirst | update_sentiment.py:101-119 | an element that passes, whose identity is unseen and shared by no earlier passing element, is kept: the first passing copy of each identity is the one kept |
| Headlines.CaseVariantDropped | update_sentiment.py:103-123 | in any feed, of the passing entries sharing a lower-cased title the first is kept, and a later case variant is kept only if it is that same entry, so the first copy's original title is the one scored |
| Headlines.EmptyTitleNeverKept | update_sentiment.py:102-114 | with non-empty keywords, an entry with an empty or missing title is never kept |
| Headlines.ConfiguredFilterDropsEmptyTitles | update_sentiment.py:23-35 | with the configured keywords, no kept entry has an empty title |
| Headlines.UndatedKeptWhenRelevant | update_sentiment.py:106-110 | an entry with no date is kept whenever it is relevant and its title is unseen; recency never drops it |
| Headlines.ConsiderEntry | update_sentiment.py:102-124 | one entry is taken exactly when it passes recency and relevance and its lower-cased title is unseen; then the title is added to `seen` and the scored headline appended, otherwise both are unchanged |
| Headlines.ScanFeed | update_sentiment.py:101-124 | the loop over one feed appends exactly the scored entries `Select` keeps, adds exactly their titles to `seen`, and counts them |
| Headlines.FilterHeadlines | update_sentiment.py:92-133 | the nested loop over all feeds returns the scored entries `Select` keeps from the concatenated feeds; a failed feed contributes nothing; the per-feed counts sum to the number of headlines |
| Sentiment.SumScores | update_sentiment.py:140 | the sum of the headline scores |
| Sentiment.NewsScore | update_sentiment.py:135-140 | exactly 0.0 for no headlines; otherwise the result times the count is the sum of the scores, i.e. the arithmetic mean |
| Sentiment.SumWithin | update_sentiment.py:140 | n scores in [lo, hi] sum to a value in [n*lo, n*hi] |
| Sentiment.NewsScoreWithin | update_sentiment.py:140 | the mean of a non-empty list lies within any bounds that hold of every score |
| Sentiment.NewsScoreBounded | update_sentiment.py:135-140 | if every headline score lies in [-1, 1], so does the news score |
| Sentiment.ScoredWithin | update_sentiment.py:122 | under a bounded analyzer, every headline score lies in [-1, 1] |
| Sentiment.FetchNewsSentiment | update_sentiment.py:82-147 | the news score is the mean of the kept headlines, scored under the base lexicon overlaid with the gold lexicon and filtered with a cutoff 2 h before `now`; 0.0 when nothing is kept; in [-1, 1] under a bounded analyzer |
| Indicators.PercentChange | update_sentiment.py:162 | the percent change times the first close equals 100 times the difference |
| Indicators.DollarSignal | update_sentiment.py:150-174 | the signal lies in [-1, 1]; it is 0.0 with no history, fewer than 2 closes, or a zero first close |
| Indicators.DollarSignalBands | update_sentiment.py:162-166 | within a 3% move the signal is minus the percent change divided by 3; at +3% or more it is -1, at -3% or less it is 1 |
| Indicators.DollarSignalDirection | update_sentiment.py:162-166 | with a positive first close, a falling index gives a signal of at least 0 and a rising index a signal of at most 0 |
| Indicators.YieldSignal | update_sentiment.py:176-200 | the signal lies in [-1, 1]; it is 0.0 with no history or fewer than 2 closes; a fall gives at least 0 and a rise at most 0 |
| Indicators.YieldSignalBands | update_sentiment.py:186-192 | within a 2.5-point change the signal is -0.4 times the change; at +2.5 or more it is -1, at -2.5 or less it is 1 |
| Indicators.VixLevel | update_sentiment.py:214-232 | the result is one of 0.8, 0.5, 0.3, -0.3, -0.1, 0.0 |
| Indicators.VixTable | update_sentiment.py:215-232 | each of the six values is given exactly on its interval: (30,inf), (25,30], (20,25], [15,20], [12,15), (-inf,12) |
| Indicators.VixMonotone | update_sentiment.py:215-232 | a higher VIX close never gives a lower signal |
| Indicators.VixBreakpoints | update_sentiment.py:215-232 | 30 maps to 0.5, 25 to 0.3, 20 to 0.0, 15 to 0.0 and 12 to -0.1 |
| Indicators.VixSignal | update_sentiment.py:202-239 | the signal is one of the six values and lies in [-1, 1]; it is 0.0 with no history or no close; otherwise it is the step function of the latest close |
| Aggregator.WeightedSum | update_sentiment.py:261-266 | the news, dollar, yield and VIX signals blended with the weights 0.60, 0.20, 0.10 and 0.10 |
| Aggregator.WeightedSumBounded | update_sentiment.py:261-266 | with all four signals in [-1, 1], the unclamped weighted sum already lies in [-1, 1] |
| Aggregator.FinalScore | update_sentiment.py:261-269 | the final score lies in [-1, 1]; when all four signals lie in [-1, 1] the clamp is the identity and the score is the weighted sum |
| Aggregator.Classify | update_sentiment.py:272-281 | the labels partition the reals: above 0.5 strongly bullish, (0.2, 0.5] bullish, (-0.2, 0.2] neutral, (-0.5, -0.2] bearish, -0.5 and below strongly bearish (each in both directions) |
| Aggregator.ClassifyMonotone | update_sentiment.py:272-281 | a higher score never gets a more bearish label |
| Aggregator.NewsOnlyExample | update_sentiment.py:261-281 | news 1.0 with the other signals 0 gives a final score of 0.6, labelled strongly bullish |
| Aggregator.CalculateMarketContext | update_sentiment.py:242-296 | each signal is its component's function of the fetched data; the final score is their clamped blend in [-1, 1] and equals the unclamped blend under a bounded analyzer; the bias is its label |

## Left out

- Network access: `feedparser.parse` and `yf.Ticker(...).history` become the `fetch` and `history` parameters. A source whose fetch raises gives `None`, so its feed has no entries or its signal is 0.0. The feed timeout and the `period="5d"` window belong to those calls and are not modelled.
- Sentiment scoring: the analyzer's `polarity_scores` (tokenization, negation, intensifiers, multi-word phrases) lives in an external library. It is the `polarity` parameter, applied to the analyzer's lexicon and the original title. The model does not prove that it stays in [-1, 1]; where a bound is needed it is the hypothesis `BoundedPolarity`.
- The analyzer object: only its lexicon field is modelled.
- Clock and timestamps: `datetime.now` becomes the `now` parameter. Entry dates are already in whole seconds, so the conversion from a parsed time tuple, and its dropping of sub-second precision against the cutoff, is not modelled.
- Text.Lower: maps only the ASCII letters A-Z. Python's `str.lower` also lower-cases non-ASCII letters, so two titles that differ only in non-ASCII case count as distinct here.
- Headlines.FilterHeadlines: if an exception is raised part-way through one feed (not when fetching it), the source keeps the headlines already added from that feed. The model takes a feed as either fetched whole or failed. For a failed feed the model records a count of 0; the source prints no count for that feed.
- Indicators.DollarSignal: a zero first close is modelled as the caught division error, giving 0.0. If the closes arrive as NumPy floats, the division may instead produce an infinity and a clamped signal of -1 or 1.
- Display output: every `print` is left out, including the per-headline label (score above 0.1 / below -0.1), the rising/falling text and the VIX level names. None of these feeds back into the score. The bias label is modelled because the chain computes it.
- Output and process handling: `save_score` (writing the score with 4 decimals to the CSV file) and the `__main__` block (exit status, fallback score 0.0 on a top-level exception) are not part of this model.
- Floating point: all arithmetic is over exact reals. Rounding of the weighted sum or of the mean is not modelled.
- The gold lexicon's values all lie in [-3.5, 3.5]. This is not proved, because the 70-entry table literal is too costly for the prover.
