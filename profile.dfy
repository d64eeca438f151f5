/**
 * The profile builder, `computeProfileFeatures` (backend/src/profile.ts):
 * turns a wallet's raw activity log and its open positions into a feature
 * record of stake sizes, category and tag affinities, risk appetite, holding
 * horizon and liquidity preference.
 */
module Profile {
  import opened Options
  import opened Stats
  import opened Median

  /** A loosely typed field of an activity record, as far as the builder inspects it. */
  datatype Value =
    | Nullish          // `undefined` or `null`
    | Num(n: real)     // `typeof v === 'number'`
    | NonNumber        // any other present value (a string, a boolean, an object)

  datatype Activity = Activity(usdcSize: Value, usdSize: Value, notional: Value, price: Value, avgPrice: Value)

  /** A held position; `endDate` is in milliseconds since the epoch. */
  datatype Position = Position(category: Option<string>, tags: Option<seq<string>>, endDate: Option<int>)

  datatype Stake = Stake(avgUsdcSize: real, medianUsdcSize: real)
  datatype Risk = Risk(avgDistFromMid: real)
  datatype Horizon = Horizon(medianDays: int)

  /**
   * The feature profile. The top-level fields carry the names it is persisted
   * under; the nested ones are the camel-case forms of the persisted
   * `avg_usdc_size`, `median_usdc_size`, `avg_dist_from_mid` and `median_days`.
   */
  datatype Features = Features(
    stake: Stake,
    categories: map<string, nat>,
    tags: map<string, nat>,
    risk: Risk,
    horizon: Horizon,
    liquidityPreference: string)

  const DayMs: int := 24 * 3600 * 1000
  /** Days assumed between entering a position and now. */
  const AssumedHoldDays: int := 21
  /** The horizon reported when no position has an end date. */
  const DefaultHorizonDays: int := 21
  const LiquidityPreference: string := "high"

  /** `a ?? b` */
  function Coalesce(a: Value, b: Value): Value
  {
    if a.Nullish? then b else a
  }

  // ---------------------------------------------------------------- stake

  /** The stake of one record: `usdcSize ?? usdSize ?? notional ?? 0`, kept when a positive number. */
  function StakeSize(a: Activity): (r: Option<real>)
    ensures r.Some? ==> r.value > 0.0
  {
    match Coalesce(Coalesce(Coalesce(a.usdcSize, a.usdSize), a.notional), Num(0.0))
    case Num(x) => if x > 0.0 then Some(x) else None
    case _ => None
  }

  /** The `sizes` list: stakes of the records that have one, in log order. */
  function Sizes(acts: seq<Activity>): (r: seq<real>)
    ensures |r| <= |acts|
    ensures forall i :: 0 <= i < |r| ==> r[i] > 0.0
  {
    if acts == [] then []
    else
      var rest := Sizes(acts[..|acts| - 1]);
      match StakeSize(acts[|acts| - 1])
      case Some(x) => rest + [x]
      case None => rest
  }

  /** A value is collected exactly when some record's stake is that value. */
  lemma {:induction false} SizesMembership(acts: seq<Activity>, x: real)
    ensures x in Sizes(acts) <==> exists i :: 0 <= i < |acts| && StakeSize(acts[i]) == Some(x)
  {
    if acts != [] {
      var p := acts[..|acts| - 1];
      SizesMembership(p, x);
      assert forall i :: 0 <= i < |p| ==> p[i] == acts[i];
      if exists i :: 0 <= i < |acts| && StakeSize(acts[i]) == Some(x) {
        var i :| 0 <= i < |acts| && StakeSize(acts[i]) == Some(x);
        if i < |p| {
          assert StakeSize(p[i]) == Some(x);
        }
      }
    }
  }

  /** A present `usdcSize` of zero hides `usdSize` and `notional`: no stake is collected. */
  lemma ZeroUsdcShadows(a: Activity)
    requires a.usdcSize == Num(0.0)
    ensures StakeSize(a) == None
  {
  }

  /** The stake statistics of the collected sizes: mean and the element at sorted index n/2
   * (the upper median), 0 when none. */
  function StakeOf(sizes: seq<real>): (r: Stake)
    ensures |sizes| == 0 ==> r == Stake(0.0, 0.0)
    ensures |sizes| > 0 ==> r.medianUsdcSize in sizes
  {
    if |sizes| == 0 then Stake(0.0, 0.0) else Stake(Mean(sizes), UpperMedian(sizes))
  }

  /**
   * With at least one stake, the average is positive and the median is the
   * upper median of the stakes, hence one of them; both lie within any bounds
   * of the stakes.
   */
  lemma StakeBounds(acts: seq<Activity>, lo: real, hi: real)
    requires |Sizes(acts)| > 0
    requires forall i :: 0 <= i < |Sizes(acts)| ==> lo <= Sizes(acts)[i] <= hi
    ensures StakeOf(Sizes(acts)).avgUsdcSize > 0.0
    ensures IsUpperMedian(Sizes(acts), StakeOf(Sizes(acts)).medianUsdcSize)
    ensures lo <= StakeOf(Sizes(acts)).avgUsdcSize <= hi
    ensures lo <= StakeOf(Sizes(acts)).medianUsdcSize <= hi
  {
    StakeOfBounds(Sizes(acts), lo, hi);
  }

  lemma StakeOfBounds(s: seq<real>, lo: real, hi: real)
    requires |s| > 0
    requires forall i :: 0 <= i < |s| ==> s[i] > 0.0
    requires forall i :: 0 <= i < |s| ==> lo <= s[i] <= hi
    ensures StakeOf(s).avgUsdcSize > 0.0
    ensures IsUpperMedian(s, StakeOf(s).medianUsdcSize)
    ensures lo <= StakeOf(s).avgUsdcSize <= hi
    ensures lo <= StakeOf(s).medianUsdcSize <= hi
  {
    MeanPositive(s);
    MeanBounds(s, lo, hi);
    MedianBounds(s, lo, hi);
    assert StakeOf(s) == Stake(Mean(s), UpperMedian(s));
  }

  lemma MedianBounds(s: seq<real>, lo: real, hi: real)
    requires |s| > 0
    requires forall i :: 0 <= i < |s| ==> lo <= s[i] <= hi
    ensures IsUpperMedian(s, UpperMedian(s))
    ensures lo <= UpperMedian(s) <= hi
  {
    MedianIsUpperMedian(s);
    var m := UpperMedian(s);
    var k :| 0 <= k < |s| && s[k] == m;
  }

  // ---------------------------------------------------------------- affinity

  predicate HasCategory(p: Position) { p.category.Some? && p.category.value != "" }

  function PositionTags(p: Position): seq<string>
  {
    if p.tags.Some? then p.tags.value else []
  }

  /** Truthy categories of the positions, in order. */
  function CategoriesSeen(ps: seq<Position>): seq<string>
  {
    if ps == [] then []
    else
      var last := ps[|ps| - 1];
      CategoriesSeen(ps[..|ps| - 1]) + (if HasCategory(last) then [last.category.value] else [])
  }

  /** All tags of all positions, in order, with repetitions. */
  function AllTags(ps: seq<Position>): seq<string>
  {
    if ps == [] then [] else AllTags(ps[..|ps| - 1]) + PositionTags(ps[|ps| - 1])
  }

  /** Reference count: positions whose (non-empty) category is `c`. */
  function PositionsInCategory(ps: seq<Position>, c: string): nat
  {
    if ps == [] then 0
    else (if ps[0].category == Some(c) && c != "" then 1 else 0) + PositionsInCategory(ps[1..], c)
  }

  /** Reference count: occurrences of `t` over every position's tag list. */
  function TagOccurrences(ps: seq<Position>, t: string): nat
  {
    if ps == [] then 0 else Count(PositionTags(ps[0]), t) + TagOccurrences(ps[1..], t)
  }

  lemma {:induction false} PositionsInCategorySnoc(ps: seq<Position>, p: Position, c: string)
    ensures PositionsInCategory(ps + [p], c) == PositionsInCategory(ps, c) + (if p.category == Some(c) && c != "" then 1 else 0)
  {
    if ps != [] {
      assert (ps + [p])[1..] == ps[1..] + [p];
      PositionsInCategorySnoc(ps[1..], p, c);
    }
  }

  lemma {:induction false} TagOccurrencesSnoc(ps: seq<Position>, p: Position, t: string)
    ensures TagOccurrences(ps + [p], t) == TagOccurrences(ps, t) + Count(PositionTags(p), t)
  {
    if ps != [] {
      assert (ps + [p])[1..] == ps[1..] + [p];
      TagOccurrencesSnoc(ps[1..], p, t);
    }
  }

  lemma {:induction false} CategoriesSeenCount(ps: seq<Position>, c: string)
    ensures Count(CategoriesSeen(ps), c) == PositionsInCategory(ps, c)
  {
    if ps != [] {
      var p, last := ps[..|ps| - 1], ps[|ps| - 1];
      var bump := if HasCategory(last) then [last.category.value] else [];
      assert Count(CategoriesSeen(ps), c) == Count(CategoriesSeen(p), c) + Count(bump, c) by {
        assert CategoriesSeen(ps) == CategoriesSeen(p) + bump;
        CountAppend(CategoriesSeen(p), bump, c);
      }
      assert PositionsInCategory(ps, c) == PositionsInCategory(p, c) + Count(bump, c) by {
        assert ps == p + [last];
        PositionsInCategorySnoc(p, last, c);
      }
      CategoriesSeenCount(p, c);
    }
  }

  lemma {:induction false} AllTagsCount(ps: seq<Position>, t: string)
    ensures Count(AllTags(ps), t) == TagOccurrences(ps, t)
  {
    if ps != [] {
      var p, last := ps[..|ps| - 1], ps[|ps| - 1];
      assert Count(AllTags(ps), t) == Count(AllTags(p), t) + Count(PositionTags(last), t) by {
        assert AllTags(ps) == AllTags(p) + PositionTags(last);
        CountAppend(AllTags(p), PositionTags(last), t);
      }
      assert TagOccurrences(ps, t) == TagOccurrences(p, t) + Count(PositionTags(last), t) by {
        assert ps == p + [last];
        TagOccurrencesSnoc(p, last, t);
      }
      AllTagsCount(p, t);
    }
  }

  /**
   * The category map holds exactly the categories some position has, each with
   * the number of positions in that category (at least 1).
   */
  lemma CategoryCounts(ps: seq<Position>, c: string)
    ensures c in Tally(CategoriesSeen(ps)) <==> PositionsInCategory(ps, c) > 0
    ensures c in Tally(CategoriesSeen(ps)) ==> Tally(CategoriesSeen(ps))[c] == PositionsInCategory(ps, c) >= 1
  {
    CategoriesSeenCount(ps, c);
    CountPositiveIffIn(CategoriesSeen(ps), c);
  }

  /**
   * The tag map holds exactly the tags that occur in some position's list,
   * each with its total number of occurrences (at least 1).
   */
  lemma TagCounts(ps: seq<Position>, t: string)
    ensures t in Tally(AllTags(ps)) <==> TagOccurrences(ps, t) > 0
    ensures t in Tally(AllTags(ps)) ==> Tally(AllTags(ps))[t] == TagOccurrences(ps, t) >= 1
  {
    AllTagsCount(ps, t);
    CountPositiveIffIn(AllTags(ps), t);
  }

  // ---------------------------------------------------------------- risk

  /** `price ?? avgPrice`, when that is a number. */
  function EntryPrice(a: Activity): (r: Option<real>)
    ensures a.price.Num? ==> r == Some(a.price.n)
    ensures a.price.NonNumber? ==> r.None?
    ensures a.price.Nullish? ==> (r.Some? <==> a.avgPrice.Num?)
  {
    match Coalesce(a.price, a.avgPrice)
    case Num(p) => Some(p)
    case _ => None
  }

  /** The `dists` list: distance of each numeric price from 0.5. */
  function Dists(acts: seq<Activity>): (r: seq<real>)
    ensures forall i :: 0 <= i < |r| ==> r[i] >= 0.0
  {
    if acts == [] then []
    else
      var rest := Dists(acts[..|acts| - 1]);
      match EntryPrice(acts[|acts| - 1])
      case Some(p) => rest + [Abs(p - 0.5)]
      case None => rest
  }

  predicate PricesInUnitRange(acts: seq<Activity>)
  {
    forall i :: 0 <= i < |acts| && EntryPrice(acts[i]).Some? ==> 0.0 <= EntryPrice(acts[i]).value <= 1.0
  }

  lemma {:induction false} DistsAtMostHalf(acts: seq<Activity>)
    requires PricesInUnitRange(acts)
    ensures forall i :: 0 <= i < |Dists(acts)| ==> Dists(acts)[i] <= 0.5
  {
    if acts != [] {
      var p := acts[..|acts| - 1];
      assert forall i :: 0 <= i < |p| ==> p[i] == acts[i];
      DistsAtMostHalf(p);
    }
  }

  /** The risk statistic is never negative, and at most 0.5 when every price is a probability. */
  lemma RiskBounds(acts: seq<Activity>)
    ensures Mean(Dists(acts)) >= 0.0
    ensures PricesInUnitRange(acts) ==> Mean(Dists(acts)) <= 0.5
  {
    var d := Dists(acts);
    MeanNonNegative(d);
    if |d| > 0 && PricesInUnitRange(acts) {
      DistsAtMostHalf(acts);
      MeanBounds(d, 0.0, 0.5);
    }
  }

  // ---------------------------------------------------------------- horizon

  /** Days from the assumed entry (`now` minus 21 days) to the end date, rounded, at least 1. */
  function HorizonDays(end: int, now: int): (r: int)
    ensures r >= 1
  {
    var assumedEntry := now - AssumedHoldDays * DayMs;
    Max(1, Round((end - assumedEntry) as real / DayMs as real))
  }

  /** Horizons of the positions that have an end date, in order. */
  function Horizons(ps: seq<Position>, now: int): (r: seq<int>)
    ensures forall i :: 0 <= i < |r| ==> r[i] >= 1
  {
    if ps == [] then []
    else
      var rest := Horizons(ps[..|ps| - 1], now);
      match ps[|ps| - 1].endDate
      case Some(end) => rest + [HorizonDays(end, now)]
      case None => rest
  }

  /** Rounded mean horizon; 21 days when no position has an end date. */
  function MedianDays(ps: seq<Position>, now: int): (r: int)
    ensures r >= 1
  {
    var h := Horizons(ps, now);
    if |h| == 0 then DefaultHorizonDays
    else
      IntSumAtLeastLength(h);
      RatioAtLeastOne(IntSum(h), |h|);
      Round(IntSum(h) as real / |h| as real)
  }

  /** Without any end date the horizon is the 21-day default. */
  lemma {:induction false} HorizonDefault(ps: seq<Position>, now: int)
    requires forall i :: 0 <= i < |ps| ==> ps[i].endDate.None?
    ensures Horizons(ps, now) == []
    ensures MedianDays(ps, now) == 21
  {
    if ps != [] {
      HorizonDefault(ps[..|ps| - 1], now);
    }
  }

  // ---------------------------------------------------------------- whole profile

  /** The profile as a function of the inputs. */
  function ProfileOf(activity: seq<Activity>, positions: seq<Position>, now: int): (r: Features)
    ensures r.liquidityPreference == "high"
    ensures r.horizon.medianDays >= 1
    ensures r.risk.avgDistFromMid >= 0.0
    ensures r.stake.avgUsdcSize >= 0.0
    ensures r.stake.avgUsdcSize > 0.0 <==> |Sizes(activity)| > 0
  {
    MeanNonNegative(Dists(activity));
    assert |Sizes(activity)| > 0 ==> Mean(Sizes(activity)) > 0.0 by {
      if |Sizes(activity)| > 0 {
        MeanPositive(Sizes(activity));
      }
    }
    Features(
      StakeOf(Sizes(activity)),
      Tally(CategoriesSeen(positions)),
      Tally(AllTags(positions)),
      Risk(Mean(Dists(activity))),
      Horizon(MedianDays(positions, now)),
      LiquidityPreference)
  }

  /** With no activity and no positions every feature takes its neutral value. */
  lemma EmptyProfile(now: int)
    ensures ProfileOf([], [], now) == Features(Stake(0.0, 0.0), map[], map[], Risk(0.0), Horizon(21), "high")
  {
    assert Tally<string>([]) == map[];
  }

  function StakeRecord(usdc: real): Activity { Activity(Num(usdc), Nullish, Nullish, Nullish, Nullish) }
  function PriceRecord(price: real): Activity { Activity(Nullish, Nullish, Nullish, Num(price), Nullish) }

  /** Stakes 10, 30 and 20 give a mean and a median of 20. */
  lemma StakeExample()
    ensures StakeOf(Sizes([StakeRecord(10.0), StakeRecord(30.0), StakeRecord(20.0)])) == Stake(20.0, 20.0)
  {
    var s := [10.0, 30.0, 20.0];
    ExampleSizes();
    ExampleMean();
    ExampleMedian();
    assert StakeOf(s) == Stake(Mean(s), UpperMedian(s));
  }

  lemma ExampleSizes()
    ensures Sizes([StakeRecord(10.0), StakeRecord(30.0), StakeRecord(20.0)]) == [10.0, 30.0, 20.0]
  {
    var acts := [StakeRecord(10.0), StakeRecord(30.0), StakeRecord(20.0)];
    assert acts[..2][..1] == [StakeRecord(10.0)] && acts[..2][..1][..0] == [];
  }

  lemma ExampleMean()
    ensures Mean([10.0, 30.0, 20.0]) == 20.0
  {
    var s := [10.0, 30.0, 20.0];
    assert s[..2] == [10.0, 30.0] && [10.0, 30.0][..1] == [10.0] && [10.0][..0] == [];
    assert Sum([10.0]) == 10.0;
    assert Sum([10.0, 30.0]) == 40.0;
  }

  lemma ExampleMedian()
    ensures UpperMedian([10.0, 30.0, 20.0]) == 20.0
  {
    var s := [10.0, 30.0, 20.0];
    assert IsUpperMedian(s, 20.0) by {
      assert s[1..] == [30.0, 20.0] && s[1..][1..] == [20.0] && s[1..][1..][1..] == [];
    }
    MedianIsUpperMedian(s);
    UpperMedianUnique(s, UpperMedian(s), 20.0);
  }

  /** Prices 0.5 and 0.9 lie 0 and 0.4 from the middle: a risk statistic of 0.2. */
  lemma RiskExample()
    ensures Mean(Dists([PriceRecord(0.5), PriceRecord(0.9)])) == 0.2
  {
    var acts := [PriceRecord(0.5), PriceRecord(0.9)];
    assert acts[..1][..0] == [];
    assert Dists(acts) == [0.0, 0.4];
    assert [0.0, 0.4][..1][..0] == [];
  }

  /**
   * `computeProfileFeatures`: each feature in turn, from the loops of the
   * sections below, assembled into the persisted record.
   */
  method ComputeProfileFeatures(activity: seq<Activity>, positions: seq<Position>, now: int)
    returns (f: Features)
    ensures f == ProfileOf(activity, positions, now)
    ensures f.liquidityPreference == "high"
    ensures f.horizon.medianDays >= 1
  {
    var stake := StakeProfile(activity);
    var catCount, tagCount := AffinityCounts(positions);
    var avgDistFromMid := RiskAppetite(activity);
    var medianHorizonDays := HorizonPreference(positions, now);
    f := Features(
      stake,
      catCount,
      tagCount,
      Risk(avgDistFromMid),
      Horizon(medianHorizonDays),
      LiquidityPreference);
  }

  /** Pushes every positive stake into `sizes`, then takes the mean and, after an in-place sort, the element at index n/2. */
  method StakeProfile(activity: seq<Activity>) returns (stake: Stake)
    ensures stake == StakeOf(Sizes(activity))
  {
    var sizes: seq<real> := [];
    for i := 0 to |activity|
      invariant sizes == Sizes(activity[..i])
    {
      assert activity[..i + 1][..i] == activity[..i];
      var a := activity[i];
      var usdc := Coalesce(Coalesce(Coalesce(a.usdcSize, a.usdSize), a.notional), Num(0.0));
      if usdc.Num? && usdc.n > 0.0 {
        sizes := sizes + [usdc.n];
      }
    }
    assert activity[..|activity|] == activity;
    var avgUsdcSize := if |sizes| > 0 then Sum(sizes) / |sizes| as real else 0.0;
    var medianUsdcSize := 0.0;
    if |sizes| > 0 {
      var buf := new real[|sizes|](k requires 0 <= k < |sizes| => sizes[k]);
      assert buf[..] == sizes;
      SortInPlace(buf);
      medianUsdcSize := buf[|sizes| / 2];
    }
    stake := Stake(avgUsdcSize, medianUsdcSize);
  }

  /** Bumps a counter per truthy category and per tag occurrence, position by position. */
  method AffinityCounts(positions: seq<Position>) returns (catCount: map<string, nat>, tagCount: map<string, nat>)
    ensures catCount == Tally(CategoriesSeen(positions))
    ensures tagCount == Tally(AllTags(positions))
  {
    catCount, tagCount := map[], map[];
    for i := 0 to |positions|
      invariant catCount == Tally(CategoriesSeen(positions[..i]))
      invariant tagCount == Tally(AllTags(positions[..i]))
    {
      var p := positions[i];
      assert positions[..i + 1] == positions[..i] + [p];
      catCount := CountCategory(catCount, positions[..i], p);
      AffinityStep(positions[..i], p);
      var tags := if p.tags.Some? then p.tags.value else [];
      tagCount := CountTags(tagCount, AllTags(positions[..i]), tags);
    }
    assert positions[..|positions|] == positions;
  }

  /** Bumps the counter of a position's category, when it has a truthy one. */
  method CountCategory(catCount: map<string, nat>, ghost done: seq<Position>, p: Position)
    returns (counts: map<string, nat>)
    requires catCount == Tally(CategoriesSeen(done))
    ensures counts == Tally(CategoriesSeen(done + [p]))
  {
    assert (done + [p])[..|done|] == done;
    counts := catCount;
    if p.category.Some? && p.category.value != "" {
      var c := p.category.value;
      assert CategoriesSeen(done + [p]) == CategoriesSeen(done) + [c];
      TallySnoc(CategoriesSeen(done), c);
      counts := counts[c := (if c in counts then counts[c] else 0) + 1];
    } else {
      assert CategoriesSeen(done + [p]) == CategoriesSeen(done);
    }
  }

  /** One more position appends its tags to the running tag list. */
  lemma AffinityStep(done: seq<Position>, p: Position)
    ensures AllTags(done + [p]) == AllTags(done) + PositionTags(p)
  {
    assert (done + [p])[..|done|] == done;
  }

  /** The inner loop over one position's tags: bumps the counter of each tag. */
  method CountTags(tagCount: map<string, nat>, ghost seen: seq<string>, tags: seq<string>)
    returns (counts: map<string, nat>)
    requires tagCount == Tally(seen)
    ensures counts == Tally(seen + tags)
  {
    counts := tagCount;
    assert seen + tags[..0] == seen;
    for j := 0 to |tags|
      invariant counts == Tally(seen + tags[..j])
    {
      var t := tags[j];
      TallySnoc(seen + tags[..j], t);
      assert seen + tags[..j + 1] == seen + tags[..j] + [t];
      counts := counts[t := (if t in counts then counts[t] else 0) + 1];
    }
    assert tags[..|tags|] == tags;
  }

  /** Pushes |price - 0.5| for every numeric price into `dists` and averages them. */
  method RiskAppetite(activity: seq<Activity>) returns (avgDistFromMid: real)
    ensures avgDistFromMid == Mean(Dists(activity))
  {
    var dists: seq<real> := [];
    for i := 0 to |activity|
      invariant dists == Dists(activity[..i])
    {
      assert activity[..i + 1][..i] == activity[..i];
      var price := Coalesce(activity[i].price, activity[i].avgPrice);
      if price.Num? {
        dists := dists + [Abs(price.n - 0.5)];
      }
    }
    assert activity[..|activity|] == activity;
    avgDistFromMid := if |dists| > 0 then Sum(dists) / |dists| as real else 0.0;
  }

  /** Accumulates `sumDays` and `cnt` over the positions with an end date and rounds their mean. */
  method HorizonPreference(positions: seq<Position>, now: int) returns (medianHorizonDays: int)
    ensures medianHorizonDays == MedianDays(positions, now)
  {
    var sumDays, cnt := 0, 0;
    for i := 0 to |positions|
      invariant sumDays == IntSum(Horizons(positions[..i], now))
      invariant cnt == |Horizons(positions[..i], now)|
    {
      assert positions[..i + 1][..i] == positions[..i];
      var p := positions[i];
      if p.endDate.Some? {
        var assumedEntry := now - AssumedHoldDays * DayMs;
        var horizonDays := Max(1, Round((p.endDate.value - assumedEntry) as real / DayMs as real));
        sumDays := sumDays + horizonDays;
        cnt := cnt + 1;
      }
    }
    assert positions[..|positions|] == positions;
    medianHorizonDays := if cnt > 0 then Round(sumDays as real / cnt as real) else DefaultHorizonDays;
  }
}
