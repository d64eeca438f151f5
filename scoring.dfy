/**
 * The five match scores of the recommender (backend/src/recommend.ts): tag
 * similarity, category share, horizon and risk tolerance decays, and
 * liquidity, plus the momentum signal. `Math.log10` is a parameter about
 * which only `log10(1) = 0` and strict monotonicity are assumed.
 */
module Scoring {
  import opened Options
  import opened Stats
  import opened MapTotals
  import Profile

  /** What the model assumes of `Math.log10`. */
  ghost predicate Log10Like(log10: real -> real)
  {
    && log10(1.0) == 0.0
    && forall x, y :: 0.0 < x < y ==> log10(x) < log10(y)
  }

  /** `Math.max(0, x)` */
  function AtLeastZero(x: real): real { if x < 0.0 then 0.0 else x }
  /** `Math.max(0, 1 - diff / tol)`: full score at no difference, decaying linearly to 0 at the tolerance. */
  function Decay(diff: real, tol: real): (r: real)
    requires diff >= 0.0 && tol > 0.0
    ensures 0.0 <= r <= 1.0
  {
    AtLeastZero(1.0 - diff / tol)
  }

  lemma DecayShape(diff: real, tol: real)
    requires diff >= 0.0 && tol > 0.0
    ensures Decay(diff, tol) == 1.0 <==> diff == 0.0
    ensures diff >= tol ==> Decay(diff, tol) == 0.0
  {
    var q := diff / tol;
    assert q * tol == diff;
    if diff > 0.0 {
      assert q > 0.0;
    }
    if diff >= tol {
      assert (q - 1.0) * tol >= 0.0;
    }
  }

  /** `total || 1`: an empty or all-zero total becomes 1. */
  function OrOne(total: nat): (r: nat)
    ensures r >= 1
  {
    if total == 0 then 1 else total
  }

  // ------------------------------------------------------------ similarity

  /** `sum over tags t of (a[t] || 0)`, accumulated left to right. */
  function TagWeight(a: map<string, nat>, tags: seq<string>): (w: nat)
    ensures (forall i :: 0 <= i < |tags| ==> tags[i] !in a) ==> w == 0
    ensures forall i :: 0 <= i < |tags| && tags[i] in a ==> w >= a[tags[i]]
  {
    if tags == [] then 0
    else TagWeight(a, tags[..|tags| - 1]) + (if tags[|tags| - 1] in a then a[tags[|tags| - 1]] else 0)
  }

  /** Tag similarity: the market's tag weight over the total of the user's tag counts. */
  ghost function TagSimilarity(a: map<string, nat>, tags: seq<string>): (r: real)
    ensures r >= 0.0
    ensures (forall i :: 0 <= i < |tags| ==> tags[i] !in a) ==> r == 0.0
  {
    if |tags| == 0 then 0.0 else TagWeight(a, tags) as real / OrOne(Total(a)) as real
  }

  /** `similarity`: a loop summing the counts of the market's tags, divided by the total. */
  method Similarity(a: map<string, nat>, tags: seq<string>) returns (r: real)
    ensures r == TagSimilarity(a, tags)
  {
    if |tags| == 0 {
      return 0.0;
    }
    var s := 0;
    for i := 0 to |tags|
      invariant s == TagWeight(a, tags[..i])
    {
      assert tags[..i + 1][..i] == tags[..i];
      s := s + (if tags[i] in a then a[tags[i]] else 0);
    }
    assert tags[..|tags|] == tags;
    var total := SumValues(a);
    r := s as real / (if total == 0 then 1 else total) as real;
  }

  predicate Distinct(tags: seq<string>)
  {
    forall i, j :: 0 <= i < j < |tags| ==> tags[i] != tags[j]
  }

  lemma {:induction false} TagWeightIgnoresAbsent(a: map<string, nat>, tags: seq<string>, k: string)
    requires k !in tags
    ensures TagWeight(a, tags) == TagWeight(a - {k}, tags)
  {
    if tags != [] {
      TagWeightIgnoresAbsent(a, tags[..|tags| - 1], k);
    }
  }

  /** Distinct tags never weigh more than all the user's tag counts together. */
  lemma {:induction false} TagWeightAtMostTotal(a: map<string, nat>, tags: seq<string>)
    requires Distinct(tags)
    ensures TagWeight(a, tags) <= Total(a)
  {
    if tags != [] {
      var p, t := tags[..|tags| - 1], tags[|tags| - 1];
      assert Distinct(p);
      if t in a {
        assert forall i :: 0 <= i < |p| ==> p[i] == tags[i];
        assert t !in p;
        TagWeightIgnoresAbsent(a, p, t);
        TagWeightAtMostTotal(a - {t}, p);
        TotalRemove(a, t);
      } else {
        TagWeightAtMostTotal(a, p);
      }
    }
  }

  /** No market tags give 0; distinct market tags give a value in [0, 1]. */
  lemma SimilarityBounds(a: map<string, nat>, tags: seq<string>)
    ensures tags == [] ==> TagSimilarity(a, tags) == 0.0
    ensures Distinct(tags) ==> 0.0 <= TagSimilarity(a, tags) <= 1.0
  {
    if tags != [] && Distinct(tags) {
      TagWeightAtMostTotal(a, tags);
      if Total(a) == 0 {
        assert TagWeight(a, tags) == 0;
      }
    }
  }

  /** Repeated market tags are counted once per repetition, so the value can exceed 1. */
  lemma SimilarityWithRepeatedTag()
    ensures TagSimilarity(map["x" := 1], ["x", "x"]) == 2.0
  {
    var m := map["x" := 1];
    TotalRemove(m, "x");
    assert m - {"x"} == map[];
    assert ["x", "x"][..1] == ["x"];
    assert ["x"][..0] == [];
  }

  // ------------------------------------------------------------ category

  /** `categoryMatch`: share of the user's positions in the market's category, 0 without a category. */
  ghost function CategoryMatch(catDist: map<string, nat>, c: Option<string>): (r: real)
    ensures 0.0 <= r <= 1.0
    ensures (c.None? || c.value == "") ==> r == 0.0
  {
    if c.None? || c.value == "" then 0.0
    else
      var count := if c.value in catDist then catDist[c.value] else 0;
      assert count <= OrOne(Total(catDist)) by {
        if c.value in catDist {
          EntryAtMostTotal(catDist, c.value);
        }
      }
      count as real / OrOne(Total(catDist)) as real
  }

  // ------------------------------------------------------------ horizon

  /** Whole days from `now` to the end date, rounded, at least 1. */
  function DaysToEnd(end: int, now: int): (r: int)
    ensures r >= 1
  {
    Max(1, Round((end - now) as real / Profile.DayMs as real))
  }

  /** `Math.max(3, Math.round(userDays * 0.3))`: 30% of the usual horizon, at least 3 days. */
  function HorizonTolerance(userDays: int): (tol: int)
    ensures tol >= 3
    ensures tol >= Round(userDays as real * 0.3)
  {
    Max(3, Round(userDays as real * 0.3))
  }

  /** `horizonMatch`: 0.2 without an end date, else linear decay of the day difference over the tolerance. */
  function HorizonMatch(userDays: int, endDate: Option<int>, now: int): (r: real)
    ensures 0.0 <= r <= 1.0
    ensures endDate.None? ==> r == 0.2
  {
    if endDate.None? then 0.2
    else
      var diff := AbsInt(DaysToEnd(endDate.value, now) - userDays);
      var tol := HorizonTolerance(userDays);
      Decay(diff as real, (if tol == 0 then 1 else tol) as real)
  }

  /**
   * With an end date, the horizon match is 1 exactly when the market ends
   * after the user's usual number of days, and 0 once the difference reaches
   * the tolerance; the `|| 1` guard never applies.
   */
  lemma HorizonMatchShape(userDays: int, end: int, now: int)
    ensures HorizonTolerance(userDays) != 0
    ensures HorizonMatch(userDays, Some(end), now) == 1.0 <==> DaysToEnd(end, now) == userDays
    ensures AbsInt(DaysToEnd(end, now) - userDays) >= HorizonTolerance(userDays) ==> HorizonMatch(userDays, Some(end), now) == 0.0
  {
    var diff := AbsInt(DaysToEnd(end, now) - userDays);
    DecayShape(diff as real, HorizonTolerance(userDays) as real);
  }

  // ------------------------------------------------------------ risk

  /** `x ?? 0.5` */
  function OrHalf(x: Option<real>): real { if x.Some? then x.value else 0.5 }

  /** Distance of the market's mid price from 0.5, a missing side counting as 0.5. */
  function MidDistance(bestBid: Option<real>, bestAsk: Option<real>): (d: real)
    ensures d >= 0.0
    ensures bestBid.None? && bestAsk.None? ==> d == 0.0
    ensures 0.0 <= OrHalf(bestBid) <= 1.0 && 0.0 <= OrHalf(bestAsk) <= 1.0 ==> d <= 0.5
  {
    Abs((OrHalf(bestBid) + OrHalf(bestAsk)) / 2.0 - 0.5)
  }

  /** `Math.max(0.05, userAvgDist * 0.6)` */
  function RiskTolerance(userAvgDist: real): (tol: real)
    ensures tol >= 0.05
  {
    if userAvgDist * 0.6 < 0.05 then 0.05 else userAvgDist * 0.6
  }

  /** `riskMatch`: linear decay of the gap between the market's and the user's distance from 0.5. */
  function RiskMatch(userAvgDist: real, bestBid: Option<real>, bestAsk: Option<real>): (r: real)
    ensures 0.0 <= r <= 1.0
  {
    var diff := Abs(MidDistance(bestBid, bestAsk) - userAvgDist);
    Decay(diff, RiskTolerance(userAvgDist))
  }

  /** The risk match is 1 exactly when the market sits as far from 0.5 as the user usually trades. */
  lemma RiskMatchIsOneIff(userAvgDist: real, bestBid: Option<real>, bestAsk: Option<real>)
    ensures RiskMatch(userAvgDist, bestBid, bestAsk) == 1.0 <==> MidDistance(bestBid, bestAsk) == userAvgDist
  {
    DecayShape(Abs(MidDistance(bestBid, bestAsk) - userAvgDist), RiskTolerance(userAvgDist));
  }

  /** A missing bid or ask is read as 0.5. */
  lemma MissingQuoteIsHalf(userAvgDist: real, quote: Option<real>)
    ensures RiskMatch(userAvgDist, None, quote) == RiskMatch(userAvgDist, Some(0.5), quote)
    ensures RiskMatch(userAvgDist, quote, None) == RiskMatch(userAvgDist, quote, Some(0.5))
  {
  }

  // ------------------------------------------------------------ liquidity and momentum

  /** `liquidityScore`: 0.1 for missing or non-positive liquidity, else log10(1 + liq) / 3 capped at 1. */
  function LiquidityScore(liq: Option<real>, log10: real -> real): (r: real)
    ensures r <= 1.0
    ensures (liq.None? || liq.value <= 0.0) ==> r == 0.1
  {
    if liq.None? || liq.value <= 0.0 then 0.1
    else
      var v := log10(1.0 + liq.value) / 3.0;
      if v < 1.0 then v else 1.0
  }

  /** Positive liquidity scores strictly above 0. */
  lemma LiquidityPositive(liq: real, log10: real -> real)
    requires Log10Like(log10)
    requires liq > 0.0
    ensures 0.0 < LiquidityScore(Some(liq), log10) <= 1.0
  {
    assert log10(1.0) < log10(1.0 + liq);
  }

  /** `((oneDayPriceChange ?? 0) + log10(1 + (volume24h || 0)) / 6) / 2` */
  function Momentum(change: Option<real>, volume: Option<real>, log10: real -> real): (r: real)
    ensures log10(1.0) == 0.0 && change.None? && (volume.None? || volume.value == 0.0) ==> r == 0.0
    ensures Log10Like(log10) && (volume.None? || volume.value >= 0.0) ==>
      r >= (if change.Some? then change.value else 0.0) / 2.0
  {
    var vol := if volume.Some? then volume.value else 0.0;
    ((if change.Some? then change.value else 0.0) + log10(1.0 + vol) / 6.0) / 2.0
  }

  /** With no price change, momentum is 0 without volume and grows with positive volume. */
  lemma MomentumVolume(v: real, w: real, log10: real -> real)
    requires Log10Like(log10)
    requires 0.0 <= v < w
    ensures Momentum(None, None, log10) == 0.0
    ensures Momentum(None, Some(v), log10) < Momentum(None, Some(w), log10)
  {
    assert log10(1.0 + v) < log10(1.0 + w);
  }
}
