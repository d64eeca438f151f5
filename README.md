# Polymarket "for you" ranking core, in Dafny

This project models the two pure computations at the heart of the
recommendation backend:

* **The profile builder**, `computeProfileFeatures` (backend/src/profile.ts),
  turns a wallet's activity log and its open positions into a feature record:
  - stake sizes: the mean and the element at sorted index ⌊n/2⌋ (the middle
    value for odd n, the upper of the two middle values for even n) of the positive
    `usdcSize ?? usdSize ?? notional` values;
  - category and tag affinities: occurrence counters;
  - risk appetite: the mean distance of entry prices from 0.5;
  - holding horizon: the rounded mean of the days between an entry assumed
    21 days ago and each end date, 21 by default;
  - the constant liquidity preference `"high"`.
* **The recommender**, `makeRecommendations` (backend/src/recommend.ts),
  scores every market of the catalog against a feature profile:
  - five match functions: `similarity`, `categoryMatch`, `horizonMatch`,
    `riskMatch` and `liquidityScore`;
  - a momentum signal and a penalty for markets already held;
  - up to three reasons, taken from seven threshold checks in a fixed order.

  It then sorts by descending score and keeps the first 20.

The source's imperative steps are modelled as methods, each proved equal to
a functional definition. These steps are:
- the loops of the builder's four sections;
- the in-place sort of the stakes;
- the tag-similarity loop;
- the map total in `similarity`;
- the seven conditional pushes of the reasons.

The promised properties are then proved as lemmas about those functions.

Modules:
- `Options` — missing values.
- `Stats` — sums, means, `Math.round`, occurrence counts and counters.
- `Median` — the in-place sort on an array and the upper median.
- `Profile` — the builder.
- `MapTotals` — the sum of a counter map's values.
- `Scoring` — the match functions.
- `Recommend` — reasons, blend and ranking.

Conventions:
- Numbers are Dafny `real`s.
- `Math.round(x)` is `floor(x + 0.5)`.
- The current time `now` is a parameter, in milliseconds.
- End dates are already-parsed millisecond timestamps.
- `Math.log10` is a parameter `log10`. The lemmas that need more than its
  value rely only on `log10(1) = 0` and strict monotonicity (`Log10Like`).

Two consequences of the code are worth stating plainly:
- **Held-market penalty.** The novelty term is `0.05 * (1 + novelty)`, with
  `novelty` equal to -0.2 for a held market and 0 otherwise
  (backend/src/recommend.ts:74-76). A held market therefore scores
  0.05 * 0.2 = 0.01 lower than an otherwise identical market that is not held
  (`Recommend.HeldPenalty`).
- **Held reason.** The "You already hold this (lowered rank)" check is the last
  of seven, and `slice(0, 3)` keeps only the first three reasons
  (backend/src/recommend.ts:84-96). The reason is therefore present exactly
  when the market is held and fewer than three earlier checks fire
  (`Recommend.HeldReasonIff`).

## Model

| member | source | states |
|---|---|---|
| Profile.ComputeProfileFeatures | backend/src/profile.ts:4-55 | The record built section by section equals the reference profile `ProfileOf` of the inputs. Its liquidity preference is `"high"` and its horizon is at least 1 day. |
| Profile.StakeProfile | backend/src/profile.ts:6-12 | Pushing the positive stakes, averaging them and reading index n/2 of the in-place-sorted copy gives `StakeOf(Sizes(activity))`. |
| Profile.StakeSize | backend/src/profile.ts:8-9 | A record contributes a stake only when the first present field of usdcSize, usdSize, notional (else 0) is a positive number. The stake it contributes is then positive. |
| Profile.Sizes | backend/src/profile.ts:6-10 | The collected stakes number at most the records and are all positive. |
| Profile.SizesMembership | backend/src/profile.ts:6-10 | A value is among the collected stakes if and only if some record's stake is that value. |
| Profile.ZeroUsdcShadows | backend/src/profile.ts:8-9 | A present `usdcSize` of 0 hides `usdSize` and `notional`, so the record contributes no stake (`??` only skips null and undefined). |
| Profile.StakeBounds | backend/src/profile.ts:11-12 | With at least one stake, the average is positive and the median is the upper median of the stakes (sorted index ⌊n/2⌋). Both lie within any bounds that hold for every stake. |
| Profile.StakeOfBounds | backend/src/profile.ts:11-12 | The same bounds, stated for any non-empty list of positive sizes. |
| Profile.StakeOf | backend/src/profile.ts:11-12 | The stake record is `{0, 0}` without sizes; otherwise its median is one of the sizes. |
| Profile.MedianBounds | backend/src/profile.ts:12 | The element at index ⌊n/2⌋ of the sorted list is the upper median and lies within the list's bounds. |
| Profile.StakeExample | backend/src/profile.ts:6-12 | Stakes 10, 30 and 20 give an average of 20 and a median of 20. |
| Median.SortInPlace | backend/src/profile.ts:12 | The array is sorted in place; its new contents are the ascending sort of its old contents. |
| Median.SiftDown | backend/src/profile.ts:12 | One insertion step: moving element i down into the sorted prefix sorts the prefix up to i, keeps the multiset of the array's contents and leaves every cell after i unchanged. |
| Median.Swap | backend/src/profile.ts:12 | Exchanging two cells updates exactly those two cells and preserves the multiset of contents. |
| Median.SortAscending | backend/src/profile.ts:12 | The reference sort returns an ascending permutation of its input, of the same length. |
| Median.InsertAscending | backend/src/profile.ts:12 | Insertion adds exactly the new element (multiset and length). |
| Median.InsertSorted | backend/src/profile.ts:12 | Inserting into a sorted list keeps it sorted. |
| Median.SortedUnique | backend/src/profile.ts:12 | Two sorted permutations of the same list are equal, so any correct ascending sort matches the reference sort. |
| Median.MedianIsUpperMedian | backend/src/profile.ts:12 | The element at index floor(n/2) of the sorted list (the upper median) is one of the values, has at most n/2 values strictly below it and more than n/2 values at or below it. |
| Median.UpperMedianUnique | backend/src/profile.ts:12 | At most one value has that rank property, so it characterises the median without reference to the sort. |
| Median.UpperMedian | backend/src/profile.ts:12 | `sizes.sort((a,b)=>a-b)[Math.floor(n/2)]`, the value at sorted index ⌊n/2⌋, is one of the values. |
| Median.EvenCountTakesUpperMiddle | backend/src/profile.ts:12 | For the four stakes 4, 1, 3, 2 the result is 3, the upper of the two middle values, and the lower middle value 2 does not have the rank property. |
| Median.CountBelowSort | backend/src/profile.ts:12 | Sorting does not change how many values lie below (or at or below) a bound. |
| Profile.AffinityCounts | backend/src/profile.ts:15-20 | The two counters built position by position equal the tallies of the truthy categories and of all tags, in order. |
| Profile.CountCategory | backend/src/profile.ts:18 | Bumping `catCount[p.category]` when the category is truthy gives the tally with that position's category added. |
| Profile.CountTags | backend/src/profile.ts:19 | The inner loop over a position's tags turns the tally of the tags seen so far into the tally with those tags appended. |
| Profile.AffinityStep | backend/src/profile.ts:19 | One more position appends its tags (none when `tags` is missing) to the running tag list. |
| Profile.CategoryCounts | backend/src/profile.ts:15-18 | A category is a key of the category map exactly when some position has it (non-empty). Its count is the number of such positions, at least 1. |
| Profile.TagCounts | backend/src/profile.ts:16-19 | A tag is a key of the tag map exactly when it occurs in some position's tag list. Its count is the total number of occurrences, at least 1. |
| Profile.CategoriesSeenCount | backend/src/profile.ts:18 | The occurrences of a category in the in-order category list equal the number of positions with that category. |
| Profile.AllTagsCount | backend/src/profile.ts:19 | The occurrences of a tag in the concatenated tag lists equal the sum of its occurrences per position. |
| Stats.Tally | backend/src/profile.ts:15-19 | A counter map's keys are exactly the values that occur in the list. |
| Stats.TallySnoc | backend/src/profile.ts:18-19 | Counting one more value `x` is `m[x] = (m[x] \|\| 0) + 1`. |
| Stats.CountPositiveIffIn | backend/src/profile.ts:18-19 | A value is counted a positive number of times exactly when it occurs. |
| Profile.RiskAppetite | backend/src/profile.ts:22-28 | The loop's average equals the mean of `Dists(activity)`. |
| Profile.Dists | backend/src/profile.ts:23-27 | Every collected distance from 0.5 is non-negative. |
| Profile.EntryPrice | backend/src/profile.ts:25-26 | `price ?? avgPrice` counts only when it is a number: a numeric `price` wins, a non-numeric present `price` gives nothing, and a missing `price` falls back to a numeric `avgPrice`. |
| Profile.DistsAtMostHalf | backend/src/profile.ts:26 | When every numeric price lies in [0, 1], every distance is at most 0.5. |
| Profile.RiskBounds | backend/src/profile.ts:28 | The risk statistic is non-negative, and at most 0.5 when the prices lie in [0, 1]. |
| Profile.RiskExample | backend/src/profile.ts:23-28 | Prices 0.5 and 0.9 give a risk statistic of 0.2. |
| Profile.HorizonPreference | backend/src/profile.ts:30-42 | The `sumDays`/`cnt` loop gives `MedianDays(positions, now)`. |
| Profile.HorizonDays | backend/src/profile.ts:34-37 | A position's horizon, measured from an entry assumed 21 days before `now`, is at least 1 day. |
| Profile.Horizons | backend/src/profile.ts:32-41 | Only positions with an end date contribute, each with a horizon of at least 1. |
| Profile.MedianDays | backend/src/profile.ts:42 | The rounded mean horizon is at least 1. |
| Profile.HorizonDefault | backend/src/profile.ts:42 | Without any end date no horizon is collected and the result is the 21-day default. |
| Profile.EmptyProfile | backend/src/profile.ts:11-54 | With no activity and no positions the profile is stake {0, 0}, empty maps, risk 0, horizon 21 and liquidity "high". |
| Profile.ProfileOf | backend/src/profile.ts:47-54 | The assembled profile has liquidity preference `"high"`, a horizon of at least 1 day and a non-negative risk statistic. Its average stake is non-negative, and positive exactly when some record has a stake. |
| Stats.Round | backend/src/profile.ts:37 | `Math.round` returns the integer within half a unit of its argument, rounding halves up. |
| Stats.MeanBounds | backend/src/profile.ts:11 | The mean of a non-empty list lies between any lower and upper bound of its elements. |
| Stats.MeanPositive | backend/src/profile.ts:11 | The mean of a non-empty list of positive values is positive. |
| MapTotals.SumValues | backend/src/recommend.ts:31 | Summing a counter map's values over its keys, one at a time, yields `Total(m)`. |
| MapTotals.TotalRemove | backend/src/recommend.ts:31 | The total does not depend on the order of the keys: it is any one entry plus the total of the rest. |
| MapTotals.EntryAtMostTotal | backend/src/recommend.ts:36-37 | No single count exceeds the map's total. |
| MapTotals.Total | backend/src/recommend.ts:31-36 | The total of a counter's values, `Object.values(m).reduce((x,y)=>x+y,0)`, is 0 exactly when every count is 0. |
| Scoring.Similarity | backend/src/recommend.ts:27-32 | The loop result is `TagSimilarity`: 0 for no market tags, else the sum of the user's counts for the market's tags over the total of all counts (or 1). |
| Scoring.SimilarityBounds | backend/src/recommend.ts:27-32 | No market tags give 0. Distinct market tags give a value in [0, 1]. |
| Scoring.TagWeightAtMostTotal | backend/src/recommend.ts:30-31 | The counts of distinct tags never add up to more than the total of all counts. |
| Scoring.SimilarityWithRepeatedTag | backend/src/recommend.ts:30 | A repeated market tag is counted once per repetition, so the similarity can reach 2. |
| Scoring.TagWeight | backend/src/recommend.ts:29-30 | The sum of `a[t] \|\| 0` over the market's tags is 0 when no tag is a key, and at least the count of every tag that is a key. |
| Scoring.TagSimilarity | backend/src/recommend.ts:27-31 | `similarity` is non-negative, and 0 when none of the market's tags is among the user's tags (in particular with no tags). |
| Scoring.CategoryMatch | backend/src/recommend.ts:34-38 | The share of the user's positions in the market's category lies in [0, 1]. It is 0 when the category is missing or empty. |
| Scoring.DaysToEnd | backend/src/recommend.ts:42 | The rounded number of days to the end date is at least 1. |
| Scoring.HorizonTolerance | backend/src/recommend.ts:45 | The tolerance is at least 3 and at least 30% of the usual horizon, rounded. |
| Scoring.HorizonMatch | backend/src/recommend.ts:40-47 | The horizon match lies in [0, 1], and it is 0.2 when the market has no end date. |
| Scoring.HorizonMatchShape | backend/src/recommend.ts:42-46 | The `tol \|\| 1` guard never applies. The match is 1 exactly when the market ends after the user's usual number of days, and 0 once the difference reaches the tolerance. |
| Scoring.Decay | backend/src/recommend.ts:46 | `max(0, 1 - diff/tol)` lies in [0, 1]. |
| Scoring.DecayShape | backend/src/recommend.ts:46 | The decay is 1 exactly at zero difference and 0 from the tolerance on. |
| Scoring.RiskTolerance | backend/src/recommend.ts:53 | The risk tolerance is at least 0.05. |
| Scoring.MidDistance | backend/src/recommend.ts:50-51 | The distance of the mid price `((bid ?? 0.5) + (ask ?? 0.5)) / 2` from 0.5 is non-negative, 0 without any quote, and at most 0.5 when both sides lie in [0, 1]. |
| Scoring.RiskMatch | backend/src/recommend.ts:49-55 | The risk match lies in [0, 1]. |
| Scoring.RiskMatchIsOneIff | backend/src/recommend.ts:49-55 | The risk match is 1 exactly when the market's mid price is as far from 0.5 as the user's average entry. |
| Scoring.MissingQuoteIsHalf | backend/src/recommend.ts:50 | A missing bid or ask scores as a quote of 0.5. |
| Scoring.LiquidityScore | backend/src/recommend.ts:57-61 | The liquidity score is at most 1. Missing or non-positive liquidity gives the 0.1 floor. |
| Scoring.LiquidityPositive | backend/src/recommend.ts:60 | Positive liquidity scores in (0, 1]. |
| Scoring.MomentumVolume | backend/src/recommend.ts:71-72 | Without a price change, momentum is 0 with no volume and strictly increases with volume. |
| Scoring.Momentum | backend/src/recommend.ts:71-72 | `((change ?? 0) + log10(1 + (volume \|\| 0)) / 6) / 2` is 0 with no change and no volume, and at least half the price change whenever the volume is not negative. |
| Recommend.BuildReasons | backend/src/recommend.ts:77-96 | The seven conditional pushes followed by `slice(0, 3)` give `Reasons`: at most three texts. |
| Recommend.PushIf | backend/src/recommend.ts:78-84 | `if (c) reasons.push(t)` appends `t` exactly when `c` holds. |
| Recommend.ReasonChecks | backend/src/recommend.ts:78-84 | There are seven checks, in evaluation order. |
| Recommend.Reasons | backend/src/recommend.ts:96 | Never more than three reasons. |
| Recommend.Take | backend/src/recommend.ts:96-100 | `slice(0, n)` keeps the first min(n, length) items: a prefix. |
| Recommend.ReasonsInCheckOrder | backend/src/recommend.ts:77-96 | The reasons are at most three and form a subsequence of the check texts in check order. Every reason is the text of a check that fired. |
| Recommend.HeldReasonIff | backend/src/recommend.ts:84-96 | "You already hold this (lowered rank)" is a reason exactly when the market is held and fewer than three of the six earlier checks fire. |
| Recommend.FiredSubsequence | backend/src/recommend.ts:77-84 | The fired texts keep the relative order of the checks. |
| Recommend.HeldPenalty | backend/src/recommend.ts:74-76 | Take two markets that differ only in identity, one held and one not. The held one scores exactly 0.01 lower, and the other cannot carry the held reason. |
| Recommend.NeutralSignals | backend/src/recommend.ts:66-68 | A market without tags, category or end date gets tag similarity 0, category match 0 and horizon match 0.2. |
| Recommend.HeldSet | backend/src/recommend.ts:64 | A market identity is held exactly when some stored position has it. |
| Recommend.MarketSignals | backend/src/recommend.ts:66-72 | The six signals of a market: the tag similarity is non-negative; the category, horizon and risk matches lie in [0, 1]; the liquidity score is at most 1. No tags give a similarity of 0 and no end date a horizon match of 0.2. |
| Recommend.Novelty | backend/src/recommend.ts:74 | The novelty term is -0.2 for a held market and 0 otherwise: negative exactly when held. |
| Recommend.Blend | backend/src/recommend.ts:76 | `0.25·tagSim + 0.15·catMatch + 0.20·horMatch + 0.15·riskMatch + 0.10·liq + 0.10·mom + 0.05·(1 + novelty)`. The weights sum to 1: all signals at 1 give 1 for a market that is not held. With every signal in [0, 1] the score lies in [0.05, 1], or in [0.04, 0.99] when held. |
| Recommend.LikeReason | backend/src/recommend.ts:80 | The reason text is `You like ` followed by the category, or by `undefined` when the category is missing. |
| Recommend.ScoreMarket | backend/src/recommend.ts:65-97 | The `markets.map` callback: the result repeats the market's display fields, has at most three reasons, and carries the held reason only for a held market. |
| Recommend.InsertByScore | backend/src/recommend.ts:98 | Stable descending insertion adds exactly the new item. |
| Recommend.SortByScore | backend/src/recommend.ts:98 | The descending sort is a permutation of the scored markets. |
| Recommend.SortByScoreNonIncreasing | backend/src/recommend.ts:98 | The sorted scores never increase. |
| Recommend.SortByScoreStable | backend/src/recommend.ts:98 | For every score, the items with that score keep their input order (the sort is stable). |
| Recommend.InsertWithScore | backend/src/recommend.ts:98 | Inserting an item into a non-increasing list places it after every item of equal score. |
| Recommend.Scored | backend/src/recommend.ts:65-97 | One scored item per market, in catalog order. |
| Recommend.MakeRecommendations | backend/src/recommend.ts:63-101 | The output has min(20, number of markets) items, in non-increasing score order; an empty catalog gives an empty list. |
| Recommend.RecommendationsAreTop | backend/src/recommend.ts:98-100 | The output is a prefix of the full sorted list. Everything kept scores at least as high as everything dropped. |
| Recommend.RecommendationsStable | backend/src/recommend.ts:98-100 | Among the output, items of equal score appear in catalog order. |
| Recommend.RecommendationsEcho | backend/src/recommend.ts:85-97 | Every output item is the scoring of some catalog market and repeats its display fields unchanged. |

## Left out

- HTTP routes, persistence and the market and wallet fetchers are not part of this model. That is backend/src/index.ts and backend/src/polymarket.ts. The frontend and the older stub server under src/ are not part of this model either.
- Numbers are exact reals. IEEE-754 rounding, `NaN` and infinities are not modelled, so neither are a non-finite price or the comparator's behaviour on `NaN` scores.
- `Date` parsing is not modelled. End dates are already-parsed millisecond timestamps, and "no end date" stands for any falsy `endDate`. An unparseable date (`NaN` time) is not modelled.
- `Date.now()` is the explicit parameter `now`. The source reads the clock once per dated position (backend/src/profile.ts:36) and once per market (backend/src/recommend.ts:42); the model uses a single `now` for the whole call.
- `Math.log10` is the parameter `log10`. The liquidity and momentum lemmas rely only on `log10(1) = 0` and strict monotonicity.
- Activity and position records are loosely typed in the source. The model keeps the fields the builder reads:
  - the stake and price fields are null/undefined, a number, or another value;
  - the category is a string or missing, so a truthy non-string category is not modelled;
  - tags are a list of strings or missing.
- Counters are JavaScript objects in the source. Keys that collide with `Object.prototype` members (for example a tag named `constructor`) are not modelled; maps start empty.
- Counts in the feature record are natural numbers. A stored profile with negative or fractional counts is not modelled.
- A market's `tags` is a list in the model. A market whose `tags` is `null` would make `similarity` throw, and that case is not modelled. A market with no `tags` is scored with, and echoed as, the empty list, where the source echoes `undefined`.
- `positions || []` and `enableOrderBook` have no effect on the model.
- Profile.ComputeProfileFeatures: the builder's single function body is split into one method per section (stake, affinity, risk, horizon). Each section's loop is kept as written.
- Median.SortInPlace: `sizes.sort(...)` is a library call in the source. The model implements it as an in-place insertion sort, and only its result, the ascending sort of the old contents, is promised; the library's own algorithm is not modelled.
- Profile.StakeProfile: the model sorts an array copy of `sizes`, while the source's `sizes.sort` reorders the local `sizes` list itself. The result is the same, because the mean is taken before the sort (backend/src/profile.ts:11).
- MapTotals.Total: `Object.values` visits integer-like keys in ascending numeric order, then the other keys in insertion order; the model removes an arbitrary key, and `MapTotals.TotalRemove` proves the order does not matter.
- Scoring.CategoryMatch, Scoring.TagSimilarity, Recommend.ScoreMarket and Recommend.MakeRecommendations are ghost functions, because the map total they use is ghost. `Scoring.Similarity` and `MapTotals.SumValues` are the executable loops proved equal to it.
