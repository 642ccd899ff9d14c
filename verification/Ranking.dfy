// Ranking the drivers that could be offered a ride, and picking the ones that are. Scores are exact reals.
module Ranking {
  type DriverId = nat

  datatype Candidate = Candidate(driverId: DriverId, rating: real, distanceM: int)

  // ---- Min-max normalisation -----------------------------------------------------------------

  function Lowest(s: seq<real>): (r: real)
    requires s != []
    ensures r in s && forall i :: 0 <= i < |s| ==> r <= s[i]
  {
    if |s| == 1 then s[0]
    else
      var r := Lowest(s[..|s| - 1]);
      if s[|s| - 1] < r then s[|s| - 1] else r
  }

  function Highest(s: seq<real>): (r: real)
    requires s != []
    ensures r in s && forall i :: 0 <= i < |s| ==> s[i] <= r
  {
    if |s| == 1 then s[0]
    else
      var r := Highest(s[..|s| - 1]);
      if s[|s| - 1] > r then s[|s| - 1] else r
  }

  function Distances(cs: seq<Candidate>): (s: seq<real>)
    ensures |s| == |cs|
  {
    seq(|cs|, i requires 0 <= i < |cs| => cs[i].distanceM as real)
  }

  function Ratings(cs: seq<Candidate>): (s: seq<real>)
    ensures |s| == |cs|
  {
    seq(|cs|, i requires 0 <= i < |cs| => cs[i].rating)
  }

  /** Where `x` stands between the lowest and the highest; nowhere in particular when they are equal. */
  function Normal(x: real, lo: real, hi: real): real {
    if hi > lo then (x - lo) / (hi - lo) else 0.5
  }

  function FlippedNormal(x: real, lo: real, hi: real): real {
    if hi > lo then 1.0 - (x - lo) / (hi - lo) else 0.5
  }

  lemma NormalInUnit(x: real, lo: real, hi: real)
    requires lo <= x <= hi
    ensures 0.0 <= Normal(x, lo, hi) <= 1.0 && 0.0 <= FlippedNormal(x, lo, hi) <= 1.0
  {
    if hi > lo {
      QuotientInUnit(x - lo, hi - lo);
    }
  }

  lemma QuotientInUnit(x: real, d: real)
    requires 0.0 <= x <= d && d > 0.0
    ensures 0.0 <= x / d <= 1.0
  {
  }

  lemma NormalOrder(x: real, y: real, lo: real, hi: real)
    requires lo <= x <= y <= hi
    ensures Normal(x, lo, hi) <= Normal(y, lo, hi) && FlippedNormal(y, lo, hi) <= FlippedNormal(x, lo, hi)
    ensures x < y ==> Normal(x, lo, hi) < Normal(y, lo, hi) && FlippedNormal(y, lo, hi) < FlippedNormal(x, lo, hi)
  {
    if hi > lo {
      QuotientOrder(x - lo, y - lo, hi - lo);
    }
  }

  lemma QuotientOrder(x: real, y: real, d: real)
    requires x <= y && d > 0.0
    ensures x / d <= y / d && (x < y ==> x / d < y / d)
  {
    var q := (y - x) / d;
    assert y / d == x / d + q;
  }

  datatype Spread = Spread(minDist: real, maxDist: real, minRating: real, maxRating: real)

  function SpreadOf(cs: seq<Candidate>): Spread
    requires cs != []
  {
    Spread(Lowest(Distances(cs)), Highest(Distances(cs)), Lowest(Ratings(cs)), Highest(Ratings(cs)))
  }

  function Score(c: Candidate, s: Spread): real {
    0.5 * FlippedNormal(c.distanceM as real, s.minDist, s.maxDist) + 0.5 * Normal(c.rating, s.minRating, s.maxRating)
  }

  predicate UsesDistance(cs: seq<Candidate>, hasDistance: bool) {
    hasDistance && |cs| > 1
  }

  /** The key each candidate is sorted by, highest first. */
  function Scores(cs: seq<Candidate>, hasDistance: bool): (s: seq<real>)
    ensures |s| == |cs|
  {
    if !UsesDistance(cs, hasDistance) then Ratings(cs)
    else
      var spread := SpreadOf(cs);
      seq(|cs|, i requires 0 <= i < |cs| => Score(cs[i], spread))
  }

  // ---- Stable sort ---------------------------------------------------------------------------

  /** Row `i` comes before row `j` in a stable descending sort. */
  predicate Before(scores: seq<real>, i: nat, j: nat)
    requires i < |scores| && j < |scores|
  {
    scores[i] > scores[j] || (scores[i] == scores[j] && i < j)
  }

  predicate AllBelow(order: seq<nat>, n: nat) {
    forall a :: 0 <= a < |order| ==> order[a] < n
  }

  predicate InOrder(scores: seq<real>, order: seq<nat>)
    requires AllBelow(order, |scores|)
  {
    forall a, b :: 0 <= a < b < |order| ==> Before(scores, order[a], order[b])
  }

  /** `x`, later than everything in `order`, goes behind the entries that score at least as high. */
  function InsertLater(scores: seq<real>, order: seq<nat>, x: nat): (r: seq<nat>)
    requires x < |scores| && AllBelow(order, x)
    ensures |r| == |order| + 1 && AllBelow(r, x + 1)
  {
    if order == [] then [x]
    else
      var last := order[|order| - 1];
      if scores[last] >= scores[x] then order + [x]
      else InsertLater(scores, order[..|order| - 1], x) + [last]
  }

  /** What a stable sort makes of the first `k` rows. */
  function StableOrder(scores: seq<real>, k: nat): (r: seq<nat>)
    requires k <= |scores|
    ensures |r| == k && AllBelow(r, k)
  {
    if k == 0 then [] else InsertLater(scores, StableOrder(scores, k - 1), k - 1)
  }

  lemma {:induction false} InsertAddsOne(scores: seq<real>, order: seq<nat>, x: nat)
    requires x < |scores| && AllBelow(order, x)
    ensures multiset(InsertLater(scores, order, x)) == multiset(order) + multiset{x}
  {
    if order != [] {
      var init := order[..|order| - 1];
      assert order == init + [order[|order| - 1]];
      InsertAddsOne(scores, init, x);
    }
  }

  lemma {:induction false} InsertKeepsOrder(scores: seq<real>, order: seq<nat>, x: nat)
    requires x < |scores| && AllBelow(order, x) && InOrder(scores, order)
    ensures InOrder(scores, InsertLater(scores, order, x))
  {
    if order != [] {
      var last, init := order[|order| - 1], order[..|order| - 1];
      if scores[last] >= scores[x] {
        AppendKeepsOrder(scores, order, x);
      } else {
        InsertKeepsOrder(scores, init, x);
        var r := InsertLater(scores, init, x);
        InsertAddsOne(scores, init, x);
        forall a | 0 <= a < |r| ensures Before(scores, r[a], last) {
          assert r[a] in multiset(r);
        }
        AppendLast(scores, r, last);
      }
    }
  }

  /** Behind the whole order, when its last entry scores at least as high. */
  lemma AppendKeepsOrder(scores: seq<real>, order: seq<nat>, x: nat)
    requires x < |scores| && AllBelow(order, x) && InOrder(scores, order)
    requires order != [] && scores[order[|order| - 1]] >= scores[x]
    ensures InOrder(scores, order + [x])
  {
    var last := |order| - 1;
    forall a | 0 <= a < |order| ensures Before(scores, order[a], x) {
      assert a < last ==> Before(scores, order[a], order[last]);
    }
    AppendLast(scores, order, x);
  }

  lemma AppendLast(scores: seq<real>, order: seq<nat>, x: nat)
    requires x < |scores| && AllBelow(order, |scores|) && InOrder(scores, order)
    requires forall a :: 0 <= a < |order| ==> Before(scores, order[a], x)
    ensures InOrder(scores, order + [x])
  {
  }

  function UpTo(n: nat): (s: seq<nat>)
    ensures |s| == n
  {
    if n == 0 then [] else UpTo(n - 1) + [n - 1]
  }

  lemma {:induction false} StableOrderSorts(scores: seq<real>, k: nat)
    requires k <= |scores|
    ensures InOrder(scores, StableOrder(scores, k))
  {
    if k > 0 {
      StableOrderSorts(scores, k - 1);
      InsertKeepsOrder(scores, StableOrder(scores, k - 1), k - 1);
    }
  }

  lemma {:induction false} StableOrderPermutes(scores: seq<real>, k: nat)
    requires k <= |scores|
    ensures multiset(StableOrder(scores, k)) == multiset(UpTo(k))
  {
    if k > 0 {
      StableOrderPermutes(scores, k - 1);
      InsertAddsOne(scores, StableOrder(scores, k - 1), k - 1);
    }
  }

  /**
   * There is only one stable order: any arrangement of the same rows that is sorted the same way is the
   * same, whatever algorithm found it.
   */
  lemma {:induction false} OrderIsUnique(scores: seq<real>, s: seq<nat>, t: seq<nat>)
    requires AllBelow(s, |scores|) && AllBelow(t, |scores|)
    requires InOrder(scores, s) && InOrder(scores, t) && multiset(s) == multiset(t)
    ensures s == t
  {
    assert |multiset(s)| == |s| && |multiset(t)| == |t|;
    if s != [] {
      LastIsLeast(scores, s, t);
      var s', t', last := s[..|s| - 1], t[..|t| - 1], s[|s| - 1];
      DropLast(s);
      DropLast(t);
      PrefixInOrder(scores, s);
      PrefixInOrder(scores, t);
      OrderIsUnique(scores, s', t');
    }
  }

  lemma DropLast(s: seq<nat>)
    requires s != []
    ensures multiset(s[..|s| - 1]) == multiset(s) - multiset{s[|s| - 1]}
  {
    assert s == s[..|s| - 1] + [s[|s| - 1]];
  }

  lemma PrefixInOrder(scores: seq<real>, s: seq<nat>)
    requires AllBelow(s, |scores|) && InOrder(scores, s) && s != []
    ensures AllBelow(s[..|s| - 1], |scores|) && InOrder(scores, s[..|s| - 1])
  {
  }

  lemma LastIsLeast(scores: seq<real>, s: seq<nat>, t: seq<nat>)
    requires AllBelow(s, |scores|) && AllBelow(t, |scores|)
    requires InOrder(scores, s) && InOrder(scores, t) && multiset(s) == multiset(t) && |s| == |t| > 0
    ensures s[|s| - 1] == t[|t| - 1]
  {
    var x, y := s[|s| - 1], t[|t| - 1];
    assert x in multiset(t) && y in multiset(s);
    var a :| 0 <= a < |s| && s[a] == y;
    var b :| 0 <= b < |t| && t[b] == x;
    assert a < |s| - 1 ==> Before(scores, y, x);
    assert b < |t| - 1 ==> Before(scores, x, y);
  }

  // ---- RankCandidates ------------------------------------------------------------------------

  function Arranged(cs: seq<Candidate>, order: seq<nat>): (r: seq<Candidate>)
    requires AllBelow(order, |cs|)
    ensures |r| == |order|
  {
    seq(|order|, a requires 0 <= a < |order| => cs[order[a]])
  }

  function Ranked(cs: seq<Candidate>, hasDistance: bool): (r: seq<Candidate>)
    ensures |r| == |cs|
  {
    RankedBy(cs, Scores(cs, hasDistance))
  }

  function RankedBy(cs: seq<Candidate>, scores: seq<real>): (r: seq<Candidate>)
    requires |scores| == |cs|
    ensures |r| == |cs|
  {
    Arranged(cs, StableOrder(scores, |cs|))
  }

  method MinMax(s: seq<real>) returns (lo: real, hi: real)
    requires s != []
    ensures lo == Lowest(s) && hi == Highest(s)
  {
    lo, hi := s[0], s[0];
    var i := 1;
    assert s[..1] == [s[0]];
    while i < |s|
      invariant 1 <= i <= |s|
      invariant lo == Lowest(s[..i]) && hi == Highest(s[..i])
    {
      assert s[..i + 1][..i] == s[..i];
      if s[i] < lo {
        lo := s[i];
      }
      if s[i] > hi {
        hi := s[i];
      }
      i := i + 1;
    }
    assert s[..i] == s;
  }

  method ScoreOne(c: Candidate, s: Spread) returns (score: real)
    ensures score == Score(c, s)
  {
    var normDistance, normRating := 0.5, 0.5;
    if s.maxDist > s.minDist {
      normDistance := 1.0 - (c.distanceM as real - s.minDist) / (s.maxDist - s.minDist);
    }
    if s.maxRating > s.minRating {
      normRating := (c.rating - s.minRating) / (s.maxRating - s.minRating);
    }
    score := 0.5 * normDistance + 0.5 * normRating;
  }

  /** The scoring loop. */
  method ScoreAll(cs: seq<Candidate>) returns (scored: seq<real>)
    requires UsesDistance(cs, true)
    ensures scored == Scores(cs, true)
  {
    var minDist, maxDist := MinMax(Distances(cs));
    var minRating, maxRating := MinMax(Ratings(cs));
    var spread := Spread(minDist, maxDist, minRating, maxRating);
    scored := [];
    while |scored| < |cs|
      invariant |scored| <= |cs|
      invariant scored == Scores(cs, true)[..|scored|]
    {
      var score := ScoreOne(cs[|scored|], spread);
      assert score == Scores(cs, true)[|scored|];
      scored := scored + [score];
    }
  }

  method RankCandidates(cs: seq<Candidate>, hasDistance: bool) returns (ranked: seq<Candidate>)
    ensures ranked == Ranked(cs, hasDistance)
  {
    var scored;
    if !hasDistance || |cs| <= 1 {
      scored := Ratings(cs);
    } else {
      scored := ScoreAll(cs);
    }
    var order := StableOrder(scored, |scored|);
    ranked := [];
    while |ranked| < |order|
      invariant |ranked| <= |order|
      invariant forall a :: 0 <= a < |ranked| ==> ranked[a] == cs[order[a]]
    {
      ranked := ranked + [cs[order[|ranked|]]];
    }
  }

  /** Ranking rearranges the candidates: none is lost, none repeated. */
  lemma RankedIsPermutation(cs: seq<Candidate>, hasDistance: bool)
    ensures multiset(Ranked(cs, hasDistance)) == multiset(cs)
  {
    RankedByPermutes(cs, Scores(cs, hasDistance));
  }

  lemma RankedByPermutes(cs: seq<Candidate>, scores: seq<real>)
    requires |scores| == |cs|
    ensures multiset(RankedBy(cs, scores)) == multiset(cs)
  {
    ArrangedPrefix(cs, scores, |cs|);
    assert cs[..|cs|] == cs;
  }

  lemma {:induction false} ArrangedPrefix(cs: seq<Candidate>, scores: seq<real>, k: nat)
    requires k <= |cs| == |scores|
    ensures multiset(Arranged(cs, StableOrder(scores, k))) == multiset(cs[..k])
  {
    if k > 0 {
      ArrangedPrefix(cs, scores, k - 1);
      ArrangedInsert(cs, scores, StableOrder(scores, k - 1), k - 1);
      assert cs[..k] == cs[..k - 1] + [cs[k - 1]];
    }
  }

  lemma {:induction false} ArrangedInsert(cs: seq<Candidate>, scores: seq<real>, order: seq<nat>, x: nat)
    requires x < |cs| == |scores| && AllBelow(order, x)
    ensures multiset(Arranged(cs, InsertLater(scores, order, x))) == multiset(Arranged(cs, order)) + multiset{cs[x]}
  {
    if order == [] || scores[order[|order| - 1]] >= scores[x] {
      ArrangedAppend(cs, order, x);
      assert order == [] ==> order + [x] == [x];
    } else {
      var init, last := order[..|order| - 1], order[|order| - 1];
      ArrangedInsert(cs, scores, init, x);
      ArrangedAppend(cs, InsertLater(scores, init, x), last);
      ArrangedAppend(cs, init, last);
      assert order == init + [last];
    }
  }

  lemma ArrangedAppend(cs: seq<Candidate>, order: seq<nat>, x: nat)
    requires AllBelow(order, |cs|) && x < |cs|
    ensures multiset(Arranged(cs, order + [x])) == multiset(Arranged(cs, order)) + multiset{cs[x]}
  {
    assert Arranged(cs, order + [x]) == Arranged(cs, order) + [cs[x]];
  }

  /** With distances, every score lies between 0 and 1. */
  lemma {:induction false} ScoresInUnit(cs: seq<Candidate>, i: nat)
    requires UsesDistance(cs, true) && i < |cs|
    ensures 0.0 <= Scores(cs, true)[i] <= 1.0
  {
    SpreadBounds(cs, i);
    var s := SpreadOf(cs);
    NormalInUnit(cs[i].distanceM as real, s.minDist, s.maxDist);
    NormalInUnit(cs[i].rating, s.minRating, s.maxRating);
  }

  lemma SpreadBounds(cs: seq<Candidate>, i: nat)
    requires i < |cs|
    ensures var s := SpreadOf(cs);
      s.minDist <= cs[i].distanceM as real <= s.maxDist && s.minRating <= cs[i].rating <= s.maxRating
  {
    assert Distances(cs)[i] == cs[i].distanceM as real && Ratings(cs)[i] == cs[i].rating;
  }

  /** The order is best first, and candidates with equal scores keep the order they came in. */
  lemma {:induction false} BestFirst(cs: seq<Candidate>, hasDistance: bool, a: nat, b: nat)
    requires a < b < |cs|
    ensures var order := StableOrder(Scores(cs, hasDistance), |cs|);
      && Ranked(cs, hasDistance)[a] == cs[order[a]] && Ranked(cs, hasDistance)[b] == cs[order[b]]
      && Before(Scores(cs, hasDistance), order[a], order[b])
  {
    StableOrderSorts(Scores(cs, hasDistance), |cs|);
  }

  /** `x` is no farther and rated no lower than `y`, and better in one of the two. */
  predicate Dominates(x: Candidate, y: Candidate) {
    x.distanceM <= y.distanceM && x.rating >= y.rating && (x.distanceM < y.distanceM || x.rating > y.rating)
  }

  lemma DominatorScoresHigher(cs: seq<Candidate>, i: nat, j: nat)
    requires i < |cs| && j < |cs| && Dominates(cs[i], cs[j])
    ensures UsesDistance(cs, true) && Scores(cs, true)[i] > Scores(cs, true)[j]
  {
    SpreadBounds(cs, i);
    SpreadBounds(cs, j);
    ScoreOrder(cs[i], cs[j], SpreadOf(cs));
  }

  lemma ScoreOrder(x: Candidate, y: Candidate, s: Spread)
    requires s.minDist <= x.distanceM as real && y.distanceM as real <= s.maxDist
    requires s.minRating <= y.rating && x.rating <= s.maxRating && Dominates(x, y)
    ensures Score(x, s) > Score(y, s)
  {
    NormalOrder(x.distanceM as real, y.distanceM as real, s.minDist, s.maxDist);
    NormalOrder(y.rating, x.rating, s.minRating, s.maxRating);
  }

  /** Scores that never put a dominated candidate level with or above the one that dominates it. */
  ghost predicate RespectDominance(cs: seq<Candidate>, scores: seq<real>) {
    |scores| == |cs| &&
    forall i, j :: 0 <= i < |cs| && 0 <= j < |cs| && Dominates(cs[i], cs[j]) ==> scores[i] > scores[j]
  }

  lemma ScoresRespectDominance(cs: seq<Candidate>)
    ensures RespectDominance(cs, Scores(cs, true))
  {
    forall i, j | 0 <= i < |cs| && 0 <= j < |cs| && Dominates(cs[i], cs[j])
      ensures Scores(cs, true)[i] > Scores(cs, true)[j]
    {
      DominatorScoresHigher(cs, i, j);
    }
  }

  lemma HigherComesFirst(scores: seq<real>, a: nat, b: nat)
    requires a < |scores| && b < |scores|
    ensures var order := StableOrder(scores, |scores|); scores[order[a]] > scores[order[b]] ==> a < b
  {
    var order := StableOrder(scores, |scores|);
    StableOrderSorts(scores, |scores|);
    assert b < a ==> Before(scores, order[b], order[a]);
  }

  lemma DominatorPrecedes(cs: seq<Candidate>, scores: seq<real>, a: nat, b: nat)
    requires RespectDominance(cs, scores) && a < |cs| && b < |cs|
    requires Dominates(RankedBy(cs, scores)[a], RankedBy(cs, scores)[b])
    ensures a < b
  {
    var order := StableOrder(scores, |cs|);
    assert RankedBy(cs, scores)[a] == cs[order[a]] && RankedBy(cs, scores)[b] == cs[order[b]];
    assert Dominates(cs[order[a]], cs[order[b]]) && scores[order[a]] > scores[order[b]];
    HigherComesFirst(scores, a, b);
  }

  /** With distances, a candidate that dominates another is ranked before it. */
  lemma {:induction false} DominatorComesFirst(cs: seq<Candidate>, a: nat, b: nat)
    requires a < |cs| && b < |cs| && Dominates(Ranked(cs, true)[a], Ranked(cs, true)[b])
    ensures a < b
  {
    ScoresRespectDominance(cs);
    DominatorPrecedes(cs, Scores(cs, true), a, b);
  }

  /** How far apart the candidates lie in distance and in rating. */
  function DistanceSpread(cs: seq<Candidate>): real
    requires cs != []
  {
    Highest(Distances(cs)) - Lowest(Distances(cs))
  }

  function RatingSpread(cs: seq<Candidate>): real
    requires cs != []
  {
    Highest(Ratings(cs)) - Lowest(Ratings(cs))
  }

  lemma HalvesTrade(dx: real, dy: real, rx: real, ry: real, d0: real, r0: real, d: real, r: real)
    requires d > 0.0 && r > 0.0
    ensures 0.5 * (1.0 - (dx - d0) / d) + 0.5 * ((rx - r0) / r) >= 0.5 * (1.0 - (dy - d0) / d) + 0.5 * ((ry - r0) / r) <==>
            (rx - ry) / r >= (dx - dy) / d
  {
    QuotientDifference(dx - d0, dy - d0, d);
    QuotientDifference(rx - r0, ry - r0, r);
  }

  lemma QuotientDifference(x: real, y: real, d: real)
    requires d > 0.0
    ensures x / d - y / d == (x - y) / d
  {
  }

  /** Nearness and rating count alike: a share of the spread in one outweighs a smaller share of the spread in the other. */
  predicate TradesWell(cs: seq<Candidate>, x: Candidate, y: Candidate)
    requires cs != []
  {
    var d, r := DistanceSpread(cs), RatingSpread(cs);
    if d > 0.0 && r > 0.0 then (x.rating - y.rating) / r >= (x.distanceM - y.distanceM) as real / d
    else if r > 0.0 then x.rating >= y.rating
    else d > 0.0 ==> x.distanceM <= y.distanceM
  }

  lemma ScoresTrade(cs: seq<Candidate>, x: Candidate, y: Candidate)
    requires cs != []
    ensures Score(x, SpreadOf(cs)) >= Score(y, SpreadOf(cs)) <==> TradesWell(cs, x, y)
  {
    var s := SpreadOf(cs);
    var d, r := DistanceSpread(cs), RatingSpread(cs);
    if d > 0.0 && r > 0.0 {
      HalvesTrade(x.distanceM as real, y.distanceM as real, x.rating, y.rating, s.minDist, s.minRating, d, r);
    } else if r > 0.0 {
      QuotientDifference(x.rating - s.minRating, y.rating - s.minRating, r);
      SignOfQuotient(x.rating - y.rating, r);
    } else if d > 0.0 {
      QuotientDifference(x.distanceM as real - s.minDist, y.distanceM as real - s.minDist, d);
      SignOfQuotient((x.distanceM - y.distanceM) as real, d);
    }
  }

  lemma SignOfQuotient(x: real, d: real)
    requires d > 0.0
    ensures x / d >= 0.0 <==> x >= 0.0
    ensures x / d <= 0.0 <==> x <= 0.0
  {
    if x != 0.0 {
      assert x / d * d == x;
    }
  }

  /** With distances, of any two candidates the one ranked before the other trades well against it. */
  lemma {:induction false} EarlierTradesWell(cs: seq<Candidate>, a: nat, b: nat)
    requires a < b < |cs| && |cs| > 1
    ensures TradesWell(cs, Ranked(cs, true)[a], Ranked(cs, true)[b])
  {
    BestFirst(cs, true, a, b);
    var order := StableOrder(Scores(cs, true), |cs|);
    assert Scores(cs, true)[order[a]] >= Scores(cs, true)[order[b]];
    ScoresTrade(cs, cs[order[a]], cs[order[b]]);
  }

  // ---- SelectOfferTargets --------------------------------------------------------------------

  predicate Holds(m: map<DriverId, bool>, k: DriverId) {
    k in m && m[k]
  }

  predicate Skipped(c: Candidate, offered: map<DriverId, bool>, excluded: map<DriverId, bool>) {
    Holds(offered, c.driverId) || Holds(excluded, c.driverId)
  }

  function Eligible(cs: seq<Candidate>, offered: map<DriverId, bool>, excluded: map<DriverId, bool>): (r: seq<Candidate>)
    ensures forall c :: c in r <==> c in cs && !Skipped(c, offered, excluded)
  {
    if cs == [] then []
    else
      var r := Eligible(cs[..|cs| - 1], offered, excluded);
      assert cs == cs[..|cs| - 1] + [cs[|cs| - 1]];
      if Skipped(cs[|cs| - 1], offered, excluded) then r else r + [cs[|cs| - 1]]
  }

  /** At most `max` of them; a negative `max` never stops the loop. */
  function Capped(cs: seq<Candidate>, max: int): seq<Candidate> {
    if 0 <= max < |cs| then cs[..max] else cs
  }

  /** The selection takes the first `max` eligible candidates, all of them when there are fewer or `max` is negative. */
  lemma CappedTakes(cs: seq<Candidate>, max: int)
    ensures Capped(cs, max) <= cs
    ensures |Capped(cs, max)| == if 0 <= max <= |cs| then max else |cs|
  {
  }

  method SelectOfferTargets(
      cs: seq<Candidate>, offered: map<DriverId, bool>, excluded: map<DriverId, bool>, max: int)
    returns (out: seq<Candidate>)
    ensures out == Capped(Eligible(cs, offered, excluded), max)
  {
    out := [];
    var i := 0;
    while i < |cs|
      invariant 0 <= i <= |cs|
      invariant out == Eligible(cs[..i], offered, excluded)
      invariant max >= 0 ==> |out| <= max
    {
      assert cs[..i + 1][..i] == cs[..i];
      if |out| == max {
        EligiblePrefix(cs, offered, excluded, i);
        return;
      }
      if !Skipped(cs[i], offered, excluded) {
        out := out + [cs[i]];
      }
      i := i + 1;
    }
    assert cs[..i] == cs;
  }

  lemma {:induction false} EligiblePrefix(
      cs: seq<Candidate>, offered: map<DriverId, bool>, excluded: map<DriverId, bool>, i: nat)
    requires i <= |cs|
    ensures Eligible(cs[..i], offered, excluded) <= Eligible(cs, offered, excluded)
  {
    if i < |cs| {
      EligiblePrefix(cs[..|cs| - 1], offered, excluded, i);
      assert cs[..|cs| - 1][..i] == cs[..i];
    } else {
      assert cs[..i] == cs;
    }
  }

  /** An eligible candidate's place among the targets is the number of eligible ones before it. */
  lemma {:induction false} EligiblePlace(
      cs: seq<Candidate>, offered: map<DriverId, bool>, excluded: map<DriverId, bool>, a: nat)
    requires a < |cs| && !Skipped(cs[a], offered, excluded)
    ensures var p := |Eligible(cs[..a], offered, excluded)|; var e := Eligible(cs, offered, excluded);
      p < |e| && e[p] == cs[a]
  {
    assert cs[..a + 1][..a] == cs[..a];
    EligiblePrefix(cs, offered, excluded, a + 1);
  }

  /** And every target has such a place. */
  lemma {:induction false} PlaceOfTarget(
      cs: seq<Candidate>, offered: map<DriverId, bool>, excluded: map<DriverId, bool>, p: nat) returns (a: nat)
    requires p < |Eligible(cs, offered, excluded)|
    ensures a < |cs| && !Skipped(cs[a], offered, excluded)
    ensures p == |Eligible(cs[..a], offered, excluded)| && Eligible(cs, offered, excluded)[p] == cs[a]
  {
    var last := |cs| - 1;
    var e := Eligible(cs[..last], offered, excluded);
    if p < |e| {
      a := PlaceOfTarget(cs[..last], offered, excluded, p);
      assert cs[..last][..a] == cs[..a];
    } else {
      a := last;
    }
  }

  /**
   * Among the ranked candidates an offer never goes to a driver while an eligible driver who dominates
   * him goes without.
   */
  lemma {:induction false} OffersRespectDominance(
      cs: seq<Candidate>, offered: map<DriverId, bool>, excluded: map<DriverId, bool>, max: int,
      x: Candidate, y: Candidate)
    requires x in cs && !Skipped(x, offered, excluded) && Dominates(x, y)
    requires y in Capped(Eligible(Ranked(cs, true), offered, excluded), max)
    ensures x in Capped(Eligible(Ranked(cs, true), offered, excluded), max)
  {
    ScoresRespectDominance(cs);
    TargetsRespectDominance(cs, Scores(cs, true), offered, excluded, max, x, y);
  }

  lemma TargetsRespectDominance(
      cs: seq<Candidate>, scores: seq<real>, offered: map<DriverId, bool>, excluded: map<DriverId, bool>, max: int,
      x: Candidate, y: Candidate)
    requires RespectDominance(cs, scores) && x in cs && !Skipped(x, offered, excluded) && Dominates(x, y)
    requires y in Capped(Eligible(RankedBy(cs, scores), offered, excluded), max)
    ensures x in Capped(Eligible(RankedBy(cs, scores), offered, excluded), max)
  {
    var ranked := RankedBy(cs, scores);
    var e := Eligible(ranked, offered, excluded);
    RankedByPermutes(cs, scores);
    assert x in multiset(ranked);
    var a :| 0 <= a < |ranked| && ranked[a] == x;
    var q :| 0 <= q < |Capped(e, max)| && Capped(e, max)[q] == y;
    var b := PlaceOfTarget(ranked, offered, excluded, q);
    DominatorPrecedes(cs, scores, a, b);
    EligiblePlace(ranked, offered, excluded, a);
    EarlierPlace(ranked, offered, excluded, a, b);
    var p := |Eligible(ranked[..a], offered, excluded)|;
    assert Capped(e, max)[p] == x;
  }

  lemma EarlierPlace(
      cs: seq<Candidate>, offered: map<DriverId, bool>, excluded: map<DriverId, bool>, a: nat, b: nat)
    requires a <= b <= |cs|
    ensures |Eligible(cs[..a], offered, excluded)| <= |Eligible(cs[..b], offered, excluded)|
  {
    assert cs[..b][..a] == cs[..a];
    EligiblePrefix(cs[..b], offered, excluded, a);
  }
}
