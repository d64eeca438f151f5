/**
 * `makeRecommendations` (backend/src/recommend.ts): scores every market of the
 * catalog against the feature profile, attaches up to three reasons, sorts by
 * descending score (stably, as `Array.prototype.sort` does) and keeps the top 20.
 */
module Recommend {
  import opened Options
  import opened Profile
  import opened Scoring

  datatype Market = Market(
    conditionId: string,
    slug: Option<string>,
    question: Option<string>,
    category: Option<string>,
    tags: seq<string>,            // a missing `tags` is the empty list
    endDate: Option<int>,
    bestBid: Option<real>,
    bestAsk: Option<real>,
    volume24h: Option<real>,
    oneDayPriceChange: Option<real>,
    liquidity: Option<real>)

  /** A stored position; only its market identity matters here. */
  datatype HeldPosition = HeldPosition(conditionId: string)

  /** One recommended market: its display fields, its score and its reasons. */
  datatype Recommendation = Recommendation(
    conditionId: string,
    slug: Option<string>,
    question: Option<string>,
    category: Option<string>,
    tags: seq<string>,            // a missing `tags` is the empty list
    endDate: Option<int>,
    bestBid: Option<real>,
    bestAsk: Option<real>,
    volume24h: Option<real>,
    score: real,
    reasons: seq<string>)

  /** The six signals of one market. */
  datatype Signals = Signals(tagSim: real, catMatch: real, horMatch: real, riskMatch: real, liquidity: real, momentum: real)

  const MaxResults: nat := 20
  const MaxReasons: nat := 3

  // ------------------------------------------------------------ blend

  /** `held.has(conditionId) ? -0.2 : 0` */
  function Novelty(held: bool): (r: real)
    ensures -0.2 <= r <= 0.0
    ensures r < 0.0 <==> held
  {
    if held then -0.2 else 0.0
  }

  /** Every signal lies in [0, 1]. */
  predicate InUnit(sig: Signals)
  {
    && 0.0 <= sig.tagSim <= 1.0 && 0.0 <= sig.catMatch <= 1.0 && 0.0 <= sig.horMatch <= 1.0
    && 0.0 <= sig.riskMatch <= 1.0 && 0.0 <= sig.liquidity <= 1.0 && 0.0 <= sig.momentum <= 1.0
  }

  /** The fixed-weight blend of the signals and the novelty term. */
  function Blend(sig: Signals, held: bool): (r: real)
    ensures InUnit(sig) && !held ==> 0.05 <= r <= 1.0
    ensures InUnit(sig) && held ==> 0.04 <= r <= 0.99
    ensures sig == Signals(1.0, 1.0, 1.0, 1.0, 1.0, 1.0) && !held ==> r == 1.0
  {
    0.25 * sig.tagSim + 0.15 * sig.catMatch + 0.20 * sig.horMatch + 0.15 * sig.riskMatch
      + 0.10 * sig.liquidity + 0.10 * sig.momentum + 0.05 * (1.0 + Novelty(held))
  }

  // ------------------------------------------------------------ reasons

  const TimeFrameReason: string := "Matches your usual time frame"
  const TagsReason: string := "Tags you trade often"
  const RiskReason: string := "Fits your risk pattern"
  const LiquidityReason: string := "High liquidity"
  const ActiveReason: string := "Active in the last 24h"
  const HeldReason: string := "You already hold this (lowered rank)"

  /** The template `You like ${m.category}`; a missing category prints as `undefined`. */
  function LikeReason(category: Option<string>): (r: string)
    ensures |r| >= 9 && r[..9] == "You like "
    ensures category.Some? ==> r[9..] == category.value
    ensures category.None? ==> r[9..] == "undefined"
  {
    "You like " + (if category.Some? then category.value else "undefined")
  }

  datatype Check = Check(fires: bool, text: string)

  /** The seven threshold checks, in the order they are evaluated. */
  function ReasonChecks(sig: Signals, category: Option<string>, held: bool): (cs: seq<Check>)
    ensures |cs| == 7
  {
    [Check(sig.horMatch > 0.7, TimeFrameReason)]
      + [Check(sig.tagSim > 0.5, TagsReason)]
      + [Check(sig.catMatch > 0.4, LikeReason(category))]
      + [Check(sig.riskMatch > 0.6, RiskReason)]
      + [Check(sig.liquidity > 0.6, LiquidityReason)]
      + [Check(sig.momentum > 0.5, ActiveReason)]
      + [Check(held, HeldReason)]
  }

  /** Texts of the checks that fire, in check order. */
  function Fired(cs: seq<Check>): (r: seq<string>)
    ensures |r| <= |cs|
  {
    if cs == [] then [] else (if cs[0].fires then [cs[0].text] else []) + Fired(cs[1..])
  }

  function Texts(cs: seq<Check>): seq<string>
  {
    if cs == [] then [] else [cs[0].text] + Texts(cs[1..])
  }

  function Opt(c: Check): seq<string> { if c.fires then [c.text] else [] }

  lemma FiredSnoc(done: seq<Check>, c: Check)
    ensures Fired(done + [c]) == Fired(done) + Opt(c)
  {
    FiredAppend(done, [c]);
    assert [c][1..] == [];
  }

  /** `xs.slice(0, n)` */
  function Take<T>(xs: seq<T>, n: nat): (r: seq<T>)
    ensures |r| == if |xs| <= n then |xs| else n
    ensures r <= xs
  {
    if |xs| <= n then xs else xs[..n]
  }

  /** Reference definition of the reasons: the first three checks that fire. */
  function Reasons(sig: Signals, category: Option<string>, held: bool): (r: seq<string>)
    ensures |r| <= MaxReasons
  {
    Take(Fired(ReasonChecks(sig, category, held)), MaxReasons)
  }

  /** The fired texts of seven checks, one check at a time. */
  lemma FiredSeven(c0: Check, c1: Check, c2: Check, c3: Check, c4: Check, c5: Check, c6: Check)
    ensures Fired([c0] + [c1] + [c2] + [c3] + [c4] + [c5] + [c6])
         == Opt(c0) + Opt(c1) + Opt(c2) + Opt(c3) + Opt(c4) + Opt(c5) + Opt(c6)
  {
    var s1 := [c0];
    assert Fired(s1) == Opt(c0) by {
      FiredSnoc([], c0);
      assert [] + [c0] == s1;
    }
    var s2 := s1 + [c1];
    assert Fired(s2) == Opt(c0) + Opt(c1) by { FiredSnoc(s1, c1); }
    var s3 := s2 + [c2];
    assert Fired(s3) == Opt(c0) + Opt(c1) + Opt(c2) by { FiredSnoc(s2, c2); }
    var s4 := s3 + [c3];
    assert Fired(s4) == Opt(c0) + Opt(c1) + Opt(c2) + Opt(c3) by { FiredSnoc(s3, c3); }
    var s5 := s4 + [c4];
    assert Fired(s5) == Opt(c0) + Opt(c1) + Opt(c2) + Opt(c3) + Opt(c4) by { FiredSnoc(s4, c4); }
    var s6 := s5 + [c5];
    assert Fired(s6) == Opt(c0) + Opt(c1) + Opt(c2) + Opt(c3) + Opt(c4) + Opt(c5) by { FiredSnoc(s5, c5); }
    FiredSnoc(s6, c6);
  }

  /** The reason list, written as the seven checks' optional texts. */
  lemma ReasonsUnfold(sig: Signals, category: Option<string>, held: bool)
    ensures Reasons(sig, category, held) == Take(
      Opt(Check(sig.horMatch > 0.7, TimeFrameReason))
      + Opt(Check(sig.tagSim > 0.5, TagsReason))
      + Opt(Check(sig.catMatch > 0.4, LikeReason(category)))
      + Opt(Check(sig.riskMatch > 0.6, RiskReason))
      + Opt(Check(sig.liquidity > 0.6, LiquidityReason))
      + Opt(Check(sig.momentum > 0.5, ActiveReason))
      + Opt(Check(held, HeldReason)), MaxReasons)
  {
    FiredSeven(
      Check(sig.horMatch > 0.7, TimeFrameReason),
      Check(sig.tagSim > 0.5, TagsReason),
      Check(sig.catMatch > 0.4, LikeReason(category)),
      Check(sig.riskMatch > 0.6, RiskReason),
      Check(sig.liquidity > 0.6, LiquidityReason),
      Check(sig.momentum > 0.5, ActiveReason),
      Check(held, HeldReason));
  }

  /** `if (fires) reasons.push(text)` */
  method PushIf(reasons: seq<string>, fires: bool, text: string) returns (r: seq<string>)
    ensures r == reasons + Opt(Check(fires, text))
  {
    r := reasons;
    if fires {
      r := r + [text];
    } else {
      assert r + [] == r;
    }
  }

  /** The reason list as the source builds it: conditional pushes, then `slice(0, 3)`. */
  method BuildReasons(sig: Signals, category: Option<string>, held: bool) returns (reasons: seq<string>)
    ensures reasons == Reasons(sig, category, held)
    ensures |reasons| <= 3
  {
    var all: seq<string> := [];
    all := PushIf(all, sig.horMatch > 0.7, TimeFrameReason);
    assert all == Opt(Check(sig.horMatch > 0.7, TimeFrameReason));
    all := PushIf(all, sig.tagSim > 0.5, TagsReason);
    all := PushIf(all, sig.catMatch > 0.4, LikeReason(category));
    all := PushIf(all, sig.riskMatch > 0.6, RiskReason);
    all := PushIf(all, sig.liquidity > 0.6, LiquidityReason);
    all := PushIf(all, sig.momentum > 0.5, ActiveReason);
    all := PushIf(all, held, HeldReason);
    ReasonsUnfold(sig, category, held);
    reasons := Take(all, MaxReasons);
  }

  /** `r` can be obtained from `s` by deleting elements, keeping the order of the rest. */
  predicate SubsequenceOf(r: seq<string>, s: seq<string>)
  {
    || r == []
    || (s != [] && ((r[0] == s[0] && SubsequenceOf(r[1..], s[1..])) || SubsequenceOf(r, s[1..])))
  }

  lemma {:induction false} SubsequencePrefix(r: seq<string>, s: seq<string>, n: nat)
    requires SubsequenceOf(r, s) && n <= |r|
    ensures SubsequenceOf(r[..n], s)
  {
    if n > 0 {
      assert r[..n][0] == r[0] && r[..n][1..] == r[1..][..n - 1];
      if r[0] == s[0] && SubsequenceOf(r[1..], s[1..]) {
        SubsequencePrefix(r[1..], s[1..], n - 1);
      } else {
        SubsequencePrefix(r, s[1..], n);
      }
    }
  }

  lemma {:induction false} FiredSubsequence(cs: seq<Check>)
    ensures SubsequenceOf(Fired(cs), Texts(cs))
  {
    if cs != [] {
      FiredSubsequence(cs[1..]);
      var t := Texts(cs);
      assert t[0] == cs[0].text && t[1..] == Texts(cs[1..]);
      var f := Fired(cs);
      if cs[0].fires {
        assert f == [cs[0].text] + Fired(cs[1..]);
        assert f[0] == t[0] && f[1..] == Fired(cs[1..]);
      } else {
        assert f == Fired(cs[1..]);
      }
    }
  }

  lemma {:induction false} FiredAppend(a: seq<Check>, b: seq<Check>)
    ensures Fired(a + b) == Fired(a) + Fired(b)
  {
    if a != [] {
      assert (a + b)[1..] == a[1..] + b;
      FiredAppend(a[1..], b);
    } else {
      assert a + b == b;
    }
  }

  lemma {:induction false} FiredFromChecks(cs: seq<Check>, x: string)
    requires x in Fired(cs)
    ensures exists i :: 0 <= i < |cs| && cs[i].fires && cs[i].text == x
  {
    if !(cs[0].fires && cs[0].text == x) {
      FiredFromChecks(cs[1..], x);
      var i :| 0 <= i < |cs[1..]| && cs[1..][i].fires && cs[1..][i].text == x;
      assert cs[i + 1] == cs[1..][i];
    }
  }

  /** The reasons appear in the fixed order of the checks, at most three of them. */
  lemma ReasonsInCheckOrder(sig: Signals, category: Option<string>, held: bool)
    ensures |Reasons(sig, category, held)| <= 3
    ensures SubsequenceOf(Reasons(sig, category, held), Texts(ReasonChecks(sig, category, held)))
    ensures forall x :: x in Reasons(sig, category, held) ==>
      exists i :: 0 <= i < 7 && ReasonChecks(sig, category, held)[i].fires && ReasonChecks(sig, category, held)[i].text == x
  {
    var cs := ReasonChecks(sig, category, held);
    var f := Fired(cs);
    FiredSubsequence(cs);
    SubsequencePrefix(f, Texts(cs), |Reasons(sig, category, held)|);
    forall x | x in Reasons(sig, category, held)
      ensures exists i :: 0 <= i < 7 && cs[i].fires && cs[i].text == x
    {
      assert x in f;
      FiredFromChecks(cs, x);
    }
  }

  /**
   * "You already hold this (lowered rank)" is a reason exactly when the market
   * is held and fewer than three of the six earlier checks fire.
   */
  lemma HeldReasonIff(sig: Signals, category: Option<string>, held: bool)
    ensures HeldReason in Reasons(sig, category, held) <==>
      held && |Fired(ReasonChecks(sig, category, held)[..6])| < 3
  {
    var cs := ReasonChecks(sig, category, held);
    var six := cs[..6];
    assert cs == six + [cs[6]];
    FiredAppend(six, [cs[6]]);
    assert Fired([cs[6]]) == if held then [HeldReason] else [];
    assert LikeReason(category)[4] == 'l' && HeldReason[4] == 'a';
    if HeldReason in Fired(six) {
      FiredFromChecks(six, HeldReason);
      assert false;
    }
    var f := Fired(cs);
    if held && |Fired(six)| < 3 {
      assert f[|Fired(six)|] == HeldReason;
      assert Reasons(sig, category, held) == f;
    }
    if HeldReason in Reasons(sig, category, held) {
      var r := Reasons(sig, category, held);
      var k :| 0 <= k < |r| && r[k] == HeldReason;
      assert f[k] == HeldReason;
      assert k >= |Fired(six)|;
    }
  }

  // ------------------------------------------------------------ one market

  /** The six signals of a market against a profile. */
  ghost function MarketSignals(f: Features, m: Market, now: int, log10: real -> real): (sig: Signals)
    ensures sig.tagSim >= 0.0
    ensures 0.0 <= sig.catMatch <= 1.0 && 0.0 <= sig.horMatch <= 1.0 && 0.0 <= sig.riskMatch <= 1.0
    ensures sig.liquidity <= 1.0
    ensures m.tags == [] ==> sig.tagSim == 0.0
    ensures m.endDate.None? ==> sig.horMatch == 0.2
  {
    Signals(
      TagSimilarity(f.tags, m.tags),
      CategoryMatch(f.categories, m.category),
      HorizonMatch(f.horizon.medianDays, m.endDate, now),
      RiskMatch(f.risk.avgDistFromMid, m.bestBid, m.bestAsk),
      LiquidityScore(m.liquidity, log10),
      Momentum(m.oneDayPriceChange, m.volume24h, log10))
  }

  /** The per-market body of the `markets.map` callback. */
  ghost function ScoreMarket(f: Features, m: Market, held: set<string>, now: int, log10: real -> real): (r: Recommendation)
    ensures Echoes(r, m)
    ensures |r.reasons| <= MaxReasons
    ensures HeldReason in r.reasons ==> m.conditionId in held
  {
    var sig := MarketSignals(f, m, now, log10);
    var isHeld := m.conditionId in held;
    HeldReasonIff(sig, m.category, isHeld);
    Recommendation(m.conditionId, m.slug, m.question, m.category, m.tags, m.endDate,
      m.bestBid, m.bestAsk, m.volume24h, Blend(sig, isHeld), Reasons(sig, m.category, isHeld))
  }

  /** The recommendation repeats the market's display fields unchanged. */
  predicate Echoes(r: Recommendation, m: Market)
  {
    && r.conditionId == m.conditionId && r.slug == m.slug && r.question == m.question
    && r.category == m.category && r.tags == m.tags && r.endDate == m.endDate
    && r.bestBid == m.bestBid && r.bestAsk == m.bestAsk && r.volume24h == m.volume24h
  }

  /**
   * Two markets that differ only in identity, one held and one not: the held
   * one scores exactly 0.05 * 0.2 = 0.01 lower, and only it can carry the
   * "already hold" reason.
   */
  lemma HeldPenalty(f: Features, m1: Market, m2: Market, held: set<string>, now: int, log10: real -> real)
    requires m2 == m1.(conditionId := m2.conditionId)
    requires m1.conditionId !in held && m2.conditionId in held
    ensures ScoreMarket(f, m1, held, now, log10).score - ScoreMarket(f, m2, held, now, log10).score == 0.01
    ensures HeldReason !in ScoreMarket(f, m1, held, now, log10).reasons
  {
    var sig := MarketSignals(f, m1, now, log10);
    assert MarketSignals(f, m2, now, log10) == sig;
    HeldReasonIff(sig, m1.category, false);
  }

  /** A market without tags, category or end date gets the neutral tag, category and horizon signals. */
  lemma NeutralSignals(f: Features, m: Market, now: int, log10: real -> real)
    requires m.tags == [] && m.category.None? && m.endDate.None?
    ensures MarketSignals(f, m, now, log10).tagSim == 0.0
    ensures MarketSignals(f, m, now, log10).catMatch == 0.0
    ensures MarketSignals(f, m, now, log10).horMatch == 0.2
  {
  }

  // ------------------------------------------------------------ ranking

  predicate NonIncreasing(s: seq<Recommendation>)
  {
    forall i, j :: 0 <= i < j < |s| ==> s[i].score >= s[j].score
  }

  /** Inserts `x` after every element scoring at least as high: a stable descending insertion. */
  function InsertByScore(s: seq<Recommendation>, x: Recommendation): (r: seq<Recommendation>)
    ensures |r| == |s| + 1
    ensures multiset(r) == multiset(s) + multiset{x}
  {
    if s == [] then [x]
    else if x.score > s[0].score then [x] + s
    else
      assert s == [s[0]] + s[1..];
      [s[0]] + InsertByScore(s[1..], x)
  }

  /** Reference stable sort by descending score (`sort((a, b) => b.score - a.score)`). */
  function SortByScore(rs: seq<Recommendation>): (r: seq<Recommendation>)
    ensures |r| == |rs|
    ensures multiset(r) == multiset(rs)
  {
    if rs == [] then []
    else
      assert rs == rs[..|rs| - 1] + [rs[|rs| - 1]];
      InsertByScore(SortByScore(rs[..|rs| - 1]), rs[|rs| - 1])
  }

  lemma {:induction false} InsertNonIncreasing(s: seq<Recommendation>, x: Recommendation)
    requires NonIncreasing(s)
    ensures NonIncreasing(InsertByScore(s, x))
  {
    if s != [] && x.score <= s[0].score {
      InsertNonIncreasing(s[1..], x);
      var rest := InsertByScore(s[1..], x);
      forall k | 0 <= k < |rest|
        ensures rest[k].score <= s[0].score
      {
        assert rest[k] in multiset(s[1..]) + multiset{x};
        if rest[k] in multiset(s[1..]) {
          var j :| 0 <= j < |s[1..]| && s[1..][j] == rest[k];
          assert s[j + 1] == rest[k];
        }
      }
    }
  }

  lemma {:induction false} SortByScoreNonIncreasing(rs: seq<Recommendation>)
    ensures NonIncreasing(SortByScore(rs))
  {
    if rs != [] {
      SortByScoreNonIncreasing(rs[..|rs| - 1]);
      InsertNonIncreasing(SortByScore(rs[..|rs| - 1]), rs[|rs| - 1]);
    }
  }

  /** The items scoring exactly `v`, in order. */
  function WithScore(s: seq<Recommendation>, v: real): seq<Recommendation>
  {
    if s == [] then [] else (if s[0].score == v then [s[0]] else []) + WithScore(s[1..], v)
  }

  lemma {:induction false} WithScoreAppend(s: seq<Recommendation>, t: seq<Recommendation>, v: real)
    ensures WithScore(s + t, v) == WithScore(s, v) + WithScore(t, v)
  {
    if s != [] {
      assert (s + t)[1..] == s[1..] + t;
      WithScoreAppend(s[1..], t, v);
    } else {
      assert s + t == t;
    }
  }

  lemma {:induction false} WithScoreNone(s: seq<Recommendation>, v: real)
    requires forall i :: 0 <= i < |s| ==> s[i].score < v
    ensures WithScore(s, v) == []
  {
    if s != [] {
      WithScoreNone(s[1..], v);
    }
  }

  lemma WithScoreCons(x: Recommendation, t: seq<Recommendation>, v: real)
    ensures WithScore([x] + t, v) == (if x.score == v then [x] else []) + WithScore(t, v)
  {
    assert ([x] + t)[1..] == t;
  }

  /** Inserting ahead of everything: no earlier item can share `x`'s score. */
  lemma InsertFrontWithScore(s: seq<Recommendation>, x: Recommendation, v: real)
    requires NonIncreasing(s) && s != [] && x.score > s[0].score
    ensures WithScore(InsertByScore(s, x), v) == WithScore(s, v) + (if x.score == v then [x] else [])
  {
    assert InsertByScore(s, x) == [x] + s;
    WithScoreCons(x, s, v);
    if x.score == v {
      WithScoreNone(s, v);
    }
  }

  /** Inserting behind the head: the head's contribution stays in front. */
  lemma InsertBehindWithScore(s: seq<Recommendation>, x: Recommendation, v: real)
    requires s != [] && x.score <= s[0].score
    requires WithScore(InsertByScore(s[1..], x), v) == WithScore(s[1..], v) + (if x.score == v then [x] else [])
    ensures WithScore(InsertByScore(s, x), v) == WithScore(s, v) + (if x.score == v then [x] else [])
  {
    var rest, ins := s[1..], InsertByScore(s[1..], x);
    var head, tail := if s[0].score == v then [s[0]] else [], if x.score == v then [x] else [];
    assert WithScore(InsertByScore(s, x), v) == head + WithScore(ins, v) by {
      assert InsertByScore(s, x) == [s[0]] + ins;
      WithScoreCons(s[0], ins, v);
    }
    assert WithScore(s, v) == head + WithScore(rest, v);
    ConcatAssoc(head, WithScore(rest, v), tail);
  }

  lemma ConcatAssoc<T>(a: seq<T>, b: seq<T>, c: seq<T>)
    ensures a + (b + c) == (a + b) + c
  {
  }

  lemma {:induction false} InsertWithScore(s: seq<Recommendation>, x: Recommendation, v: real)
    requires NonIncreasing(s)
    ensures WithScore(InsertByScore(s, x), v) == WithScore(s, v) + (if x.score == v then [x] else [])
  {
    if s == [] {
      assert InsertByScore(s, x) == [x] + [];
      WithScoreCons(x, [], v);
    } else if x.score > s[0].score {
      InsertFrontWithScore(s, x, v);
    } else {
      assert NonIncreasing(s[1..]);
      InsertWithScore(s[1..], x, v);
      InsertBehindWithScore(s, x, v);
    }
  }

  /** Stability: for every score, the items with that score keep their input order. */
  lemma {:induction false} SortByScoreStable(rs: seq<Recommendation>, v: real)
    ensures WithScore(SortByScore(rs), v) == WithScore(rs, v)
  {
    if rs != [] {
      var p, x := rs[..|rs| - 1], rs[|rs| - 1];
      assert rs == p + [x];
      assert SortByScore(rs) == InsertByScore(SortByScore(p), x);
      SortByScoreStable(p, v);
      SortByScoreNonIncreasing(p);
      InsertWithScore(SortByScore(p), x, v);
      WithScoreAppend(p, [x], v);
      WithScoreCons(x, [], v);
      assert [x] + [] == [x];
    }
  }

  // ------------------------------------------------------------ whole pipeline

  /** `new Set(positions.map(p => p.conditionId))` */
  function HeldSet(positions: seq<HeldPosition>): (r: set<string>)
    ensures forall i :: 0 <= i < |positions| ==> positions[i].conditionId in r
    ensures forall id :: id in r ==> exists i :: 0 <= i < |positions| && positions[i].conditionId == id
  {
    set p | p in positions :: p.conditionId
  }

  /** Every market scored, in catalog order. */
  ghost function Scored(f: Features, markets: seq<Market>, positions: seq<HeldPosition>, now: int, log10: real -> real): (r: seq<Recommendation>)
    ensures |r| == |markets|
  {
    seq(|markets|, i requires 0 <= i < |markets| => ScoreMarket(f, markets[i], HeldSet(positions), now, log10))
  }

  /** `makeRecommendations`: score every market, sort by descending score, keep the first 20. */
  ghost function MakeRecommendations(f: Features, markets: seq<Market>, positions: seq<HeldPosition>, now: int, log10: real -> real): (out: seq<Recommendation>)
    ensures |out| == if |markets| < 20 then |markets| else 20
    ensures NonIncreasing(out)
  {
    var sorted := SortByScore(Scored(f, markets, positions, now, log10));
    SortByScoreNonIncreasing(Scored(f, markets, positions, now, log10));
    Take(sorted, MaxResults)
  }

  /** The output is the head of the sorted list: nothing left out scores higher than anything kept. */
  lemma RecommendationsAreTop(f: Features, markets: seq<Market>, positions: seq<HeldPosition>, now: int, log10: real -> real)
    ensures var out := MakeRecommendations(f, markets, positions, now, log10);
      var all := SortByScore(Scored(f, markets, positions, now, log10));
      && out <= all
      && forall k, j :: 0 <= k < |out| <= j < |all| ==> out[k].score >= all[j].score
  {
    SortByScoreNonIncreasing(Scored(f, markets, positions, now, log10));
  }

  /** Items of equal score appear in catalog order. */
  lemma RecommendationsStable(f: Features, markets: seq<Market>, positions: seq<HeldPosition>, now: int, log10: real -> real, v: real)
    ensures WithScore(MakeRecommendations(f, markets, positions, now, log10), v) <= WithScore(Scored(f, markets, positions, now, log10), v)
  {
    var scored := Scored(f, markets, positions, now, log10);
    var out := MakeRecommendations(f, markets, positions, now, log10);
    var all := SortByScore(scored);
    assert all == out + all[|out|..];
    WithScoreAppend(out, all[|out|..], v);
    SortByScoreStable(scored, v);
  }

  /** Each item is the scoring of one of the markets and repeats its display fields. */
  lemma RecommendationsEcho(f: Features, markets: seq<Market>, positions: seq<HeldPosition>, now: int, log10: real -> real, k: nat)
    requires k < |markets| && k < MaxResults
    ensures exists i :: (0 <= i < |markets|
      && MakeRecommendations(f, markets, positions, now, log10)[k] == ScoreMarket(f, markets[i], HeldSet(positions), now, log10)
      && Echoes(MakeRecommendations(f, markets, positions, now, log10)[k], markets[i]))
  {
    var scored := Scored(f, markets, positions, now, log10);
    var out := MakeRecommendations(f, markets, positions, now, log10);
    var all := SortByScore(scored);
    assert out[k] == all[k];
    assert out[k] in multiset(scored);
    var i :| 0 <= i < |scored| && scored[i] == out[k];
    assert scored[i] == ScoreMarket(f, markets[i], HeldSet(positions), now, log10);
  }
}
