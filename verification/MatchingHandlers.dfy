// What the matching handlers do with the rules they choose by: each handler is a step of the runs, a retry
// goes on to the next attempt, the best free drivers get the offers, and only the offered driver can accept.
module MatchingHandlers {
  import opened Wrappers
  import opened MatchingKeys
  import opened Matching
  import MatchingRuns
  import MatchingService
  import Ranking

  // ---- Handlers are steps --------------------------------------------------------------------

  /** The retry worker's handling of an entry is a step of the runs, for the targets that it computes. */
  lemma {:induction false} RetryIsStep(w: MatchingRuns.World, r: RideId, round: Round, targets: seq<Ranking.Candidate>)
    requires r in w.keys.pending && targets == Targets(w.keys, r, w.keys.pending[r].attempt + 1, round)
    ensures MatchingRuns.Enabled(w, MatchingRuns.RetryPending(r, round, targets))
    ensures MatchingRuns.Next(w, MatchingRuns.RetryPending(r, round, targets)) ==
            w.(keys := RetryTo(w.keys, r, w.keys.pending[r], round, targets))
  {
    TargetsAreFree(w.keys, r, w.keys.pending[r].attempt + 1, round);
    StepOfRetry(w, r, round, targets);
  }

  lemma StepOfRetry(w: MatchingRuns.World, r: RideId, round: Round, targets: seq<Ranking.Candidate>)
    requires r in w.keys.pending && FreeTargets(w.keys, r, targets)
    ensures MatchingRuns.Next(w, MatchingRuns.RetryPending(r, round, targets)) ==
            w.(keys := RetryTo(w.keys, r, w.keys.pending[r], round, targets))
  {
  }

  /** So is the first broadcast of a ride, which is owed until it succeeds. */
  lemma {:induction false} FirstBroadcastIsStep(w: MatchingRuns.World, r: RideId, round: Round, targets: seq<Ranking.Candidate>)
    requires r in w.owed && targets == Targets(w.keys, r, 1, round)
    ensures MatchingRuns.Enabled(w, MatchingRuns.FirstBroadcast(r, round, targets))
    ensures MatchingRuns.Next(w, MatchingRuns.FirstBroadcast(r, round, targets)).keys ==
            BroadcastTo(w.keys, r, 1, round, targets)
  {
    TargetsAreFree(w.keys, r, 1, round);
    StepOfBroadcast(w, r, round, targets);
  }

  lemma StepOfBroadcast(w: MatchingRuns.World, r: RideId, round: Round, targets: seq<Ranking.Candidate>)
    requires r in w.owed && FreeTargets(w.keys, r, targets)
    ensures MatchingRuns.Next(w, MatchingRuns.FirstBroadcast(r, round, targets)).keys ==
            BroadcastTo(w.keys, r, 1, round, targets)
  {
  }

  // ---- Retries go on -------------------------------------------------------------------------

  /** A ride that is still looking for its driver. */
  predicate Looking(k: Keys, r: RideId) {
    r in k.rides && k.rides[r].status.Searching? && r !in k.accepted
  }

  /** What a due retry without a fault comes to: the next attempt with thirty seconds to answer, or the end of the search. */
  predicate GoesOn(k: Keys, k': Keys, r: RideId, attempt: int, now: int) {
    if attempt <= 5
    then k'.pending == k.pending[r := Pending(attempt, now + 30_000)] && k'.rides == k.rides
    else r !in k'.pending && r in k'.rides && k'.rides[r].status.Failed? && k'.offers == k.offers
  }

  lemma BroadcastGoesOn(k: Keys, r: RideId, attempt: int, round: Round, targets: seq<Ranking.Candidate>)
    requires Looking(k, r) && round.fault.NoFault?
    ensures GoesOn(k, BroadcastTo(k, r, attempt, round, targets), r, attempt, round.now)
  {
    BroadcastArms(k, r, attempt, round, targets);
    MatchingRuns.BroadcastStatus(k, r, attempt, round, targets);
    if attempt <= 5 {
      MatchingRuns.BroadcastRides(k, r, attempt, round, targets);
    } else {
      GivingUpOffersNothing(k, r, attempt, round, targets);
    }
  }

  lemma GivingUpOffersNothing(k: Keys, r: RideId, attempt: int, round: Round, targets: seq<Ranking.Candidate>)
    requires attempt > 5
    ensures BroadcastTo(k, r, attempt, round, targets).offers == k.offers
  {
    if round.fault.Early? {
    } else if r !in k.rides || !k.rides[r].status.Searching? {
      assert DeletePending(k, r).offers == k.offers;
    } else {
      var failed := SetStatus(k, r, Failed);
      assert failed.offers == k.offers;
      assert DeletePending(failed, r).offers == k.offers;
    }
  }

  lemma DueRetryBroadcasts(k: Keys, r: RideId, p: Pending, round: Round, targets: seq<Ranking.Candidate>)
    requires r !in k.accepted && round.now >= p.deadline
    ensures RetryTo(k, r, p, round, targets) == BroadcastTo(k, r, p.attempt + 1, round, targets)
  {
  }

  /** Each due retry of a ride that is looking for its driver goes on to the next of five attempts. */
  lemma {:induction false} RetryGoesOn(k: Keys, r: RideId, p: Pending, round: Round, targets: seq<Ranking.Candidate>)
    requires Looking(k, r) && round.fault.NoFault? && round.now >= p.deadline
    ensures GoesOn(k, RetryTo(k, r, p, round, targets), r, p.attempt + 1, round.now)
  {
    DueRetryBroadcasts(k, r, p, round, targets);
    BroadcastGoesOn(k, r, p.attempt + 1, round, targets);
  }

  /** Before its deadline an entry is left alone, and that of a claimed ride is dropped. */
  lemma RetryWaits(k: Keys, r: RideId, p: Pending, round: Round, targets: seq<Ranking.Candidate>)
    ensures r !in k.accepted && round.now < p.deadline ==> RetryTo(k, r, p, round, targets) == k
    ensures r in k.accepted ==> RetryTo(k, r, p, round, targets) == k.(pending := k.pending - {r})
  {
  }

  // ---- Who gets an offer -----------------------------------------------------------------------

  /** What an offer leaves behind, as far as its commands got. */
  predicate GotOffer(k: Keys, k': Keys, r: RideId, d: DriverId, reach: nat) {
    && (reach > 0 ==> d in k'.offers && k'.offers[d] == r)
    && (reach > 1 ==> d in OfferedTo(k', r))
    && (reach > 2 ==> Count(k', d) == Count(k, d) + 1)
  }

  /** What one more offer changes: the slot, the ride's set and the count of its own driver. */
  predicate OfferMoves(k: Keys, k': Keys, r: RideId, e: DriverId) {
    && (k'.offers == k.offers || (e !in k.offers && k'.offers == k.offers[e := r]))
    && OfferedTo(k, r) <= OfferedTo(k', r)
    && (k'.counts == k.counts || (e !in k.offers && k'.counts == k.counts[e := Count(k, e) + 1]))
  }

  /** The first two commands of an offer. */
  function NotedOffer(k: Keys, r: RideId, e: DriverId): Keys {
    RecordOffer(SetOffer(k, r, e), r, e)
  }

  lemma NotedOfferKeys(k: Keys, r: RideId, e: DriverId)
    requires e !in k.offers
    ensures var noted := NotedOffer(k, r, e);
      noted.offers == k.offers[e := r] && OfferedTo(noted, r) == OfferedTo(k, r) + {e} && noted.counts == k.counts
  {
  }

  lemma OfferOneMoves(k: Keys, r: RideId, e: DriverId, reach: nat)
    ensures OfferMoves(k, OfferOne(k, r, e, reach), r, e)
  {
    if reach == 0 || e in k.offers {
      assert OfferOne(k, r, e, reach) == k;
    } else if reach == 1 {
      assert OfferOne(k, r, e, reach) == SetOffer(k, r, e);
    } else {
      NotedOfferKeys(k, r, e);
      CountedOfferMoves(k, NotedOffer(k, r, e), r, e);
      assert OfferOne(k, r, e, reach) == if reach == 2 then NotedOffer(k, r, e) else IncrementCount(NotedOffer(k, r, e), e);
    }
  }

  lemma CountedOfferMoves(k: Keys, noted: Keys, r: RideId, e: DriverId)
    requires e !in k.offers && noted.offers == k.offers[e := r]
    requires OfferedTo(noted, r) == OfferedTo(k, r) + {e} && noted.counts == k.counts
    ensures OfferMoves(k, noted, r, e) && OfferMoves(k, IncrementCount(noted, e), r, e)
  {
  }

  /** An offer stays when the next one goes out, whoever gets that. */
  lemma MovesKeepOffer(k: Keys, before: Keys, after: Keys, r: RideId, d: DriverId, reach: nat, e: DriverId)
    requires GotOffer(k, before, r, d, reach) && OfferMoves(before, after, r, e) && (reach == 0 ==> d != e)
    ensures GotOffer(k, after, r, d, reach)
  {
  }

  lemma NewOffer(before: Keys, r: RideId, d: DriverId, reach: nat)
    requires d !in before.offers
    ensures GotOffer(before, OfferOne(before, r, d, reach), r, d, reach)
  {
    if reach == 1 {
      assert OfferOne(before, r, d, reach) == SetOffer(before, r, d);
    } else if reach > 1 {
      var noted := NotedOffer(before, r, d);
      NotedOfferKeys(before, r, d);
      assert OfferOne(before, r, d, reach) == if reach == 2 then noted else IncrementCount(noted, d);
    }
  }

  /** Every target gets its offer, as far as its own commands get through. */
  lemma {:induction false} AllGetOffers(k: Keys, r: RideId, targets: seq<Ranking.Candidate>, cut: Cut, i: nat)
    requires i < |targets| && forall j :: 0 <= j < |targets| ==> targets[j].driverId !in k.offers
    ensures var d := targets[i].driverId; GotOffer(k, OfferAll(k, r, targets, cut), r, d, Reach(cut, d))
  {
    var n, d := |targets| - 1, targets[i].driverId;
    var e := targets[n].driverId;
    var before := OfferAll(k, r, targets[..n], cut);
    OffersOnly(k, r, targets[..n], cut);
    OffersCountedOnce(k, r, targets[..n], cut, d);
    OfferOneMoves(before, r, e, Reach(cut, e));
    if Reach(cut, d) == 0 {
    } else if i < n {
      AllGetOffers(k, r, targets[..n], cut, i);
      MovesKeepOffer(k, before, OfferOne(before, r, e, Reach(cut, e)), r, d, Reach(cut, d), e);
    } else if d !in before.offers {
      NewOffer(before, r, d, Reach(cut, d));
      assert Count(before, d) == Count(k, d);
    } else {
      var j :| 0 <= j < n && targets[..n][j].driverId == d;
      AllGetOffers(k, r, targets[..n], cut, j);
      MovesKeepOffer(k, before, OfferOne(before, r, e, Reach(cut, e)), r, d, Reach(cut, d), e);
    }
  }

  /** A broadcast within its attempts offers the ride to every free driver it picked. */
  lemma {:induction false} BroadcastReachesTargets(
      k: Keys, r: RideId, attempt: int, round: Round, targets: seq<Ranking.Candidate>, i: nat)
    requires r in k.rides && k.rides[r].status.Searching? && attempt <= 5 && !round.fault.Early?
    requires FreeTargets(k, r, targets) && i < |targets|
    ensures var d := targets[i].driverId;
      GotOffer(k, BroadcastTo(k, r, attempt, round, targets), r, d, Reach(round.cut, d))
  {
    forall j | 0 <= j < |targets| ensures targets[j].driverId !in k.offers {
      assert Free(k, r, targets[j].driverId);
    }
    AllGetOffers(k, r, targets, round.cut, i);
    ArmedIsOffered(k, r, attempt, round, targets, targets[i].driverId);
  }

  /** A broadcast that reports no error has made its offers completely: slot, record and count of every target. */
  lemma {:induction false} SuccessReachesAll(
      k: Keys, r: RideId, attempt: int, round: Round, targets: seq<Ranking.Candidate>, i: nat)
    requires r in k.rides && k.rides[r].status.Searching? && attempt <= 5 && FreeTargets(k, r, targets) && i < |targets|
    requires Succeeds(k, r, attempt, round, targets)
    ensures var d, k' := targets[i].driverId, BroadcastTo(k, r, attempt, round, targets);
      d in k'.offers && k'.offers[d] == r && d in OfferedTo(k', r) && Count(k', d) == Count(k, d) + 1
  {
    assert Reach(round.cut, targets[i].driverId) >= 3;
    BroadcastReachesTargets(k, r, attempt, round, targets, i);
  }

  /** And an error has its reason: a fault around the offers, or an offer to a target that broke off. */
  lemma ErrorsHaveReasons(k: Keys, r: RideId, attempt: int, round: Round, targets: seq<Ranking.Candidate>)
    requires !Succeeds(k, r, attempt, round, targets)
    ensures round.fault.Early? || round.fault.Late? ||
            exists i :: 0 <= i < |targets| && targets[i].driverId in round.cut && round.cut[targets[i].driverId] <= 2
  {
    if round.fault.NoFault? {
      var i :| 0 <= i < |targets| && Reach(round.cut, targets[i].driverId) < 3;
      assert targets[i].driverId in round.cut;
    }
  }

  lemma ArmedIsOffered(k: Keys, r: RideId, attempt: int, round: Round, targets: seq<Ranking.Candidate>, d: DriverId)
    requires r in k.rides && k.rides[r].status.Searching? && attempt <= 5 && !round.fault.Early?
    requires GotOffer(k, OfferAll(k, r, targets, round.cut), r, d, Reach(round.cut, d))
    ensures GotOffer(k, BroadcastTo(k, r, attempt, round, targets), r, d, Reach(round.cut, d))
  {
    var offered, k' := OfferAll(k, r, targets, round.cut), BroadcastTo(k, r, attempt, round, targets);
    assert k'.offers == offered.offers && k'.offered == offered.offered && k'.counts == offered.counts;
  }

  // ---- Whom a broadcast prefers -----------------------------------------------------------------

  /** A driver whom the location service found and who is online: his rating there, and the distance reported last. */
  ghost predicate FoundOnline(k: Keys, found: seq<Near>, c: Ranking.Candidate, j: nat) {
    && j < |found| && found[j].driver == c.driverId && c.driverId in k.online
    && c.rating == k.online[c.driverId] != 0.0
    && (exists i :: ReportedLast(found, c, i))
  }

  predicate ReportedLast(found: seq<Near>, c: Ranking.Candidate, i: nat) {
    && i < |found| && found[i] == Near(c.driverId, c.distanceM)
    && forall j :: i < j < |found| ==> found[j].driver != c.driverId
  }

  lemma {:induction false} DistanceIsLast(found: seq<Near>, c: Ranking.Candidate, j: nat)
    requires j < |found| && found[j].driver == c.driverId
    ensures DistanceOf(found, c.driverId) == c.distanceM <==> exists i :: ReportedLast(found, c, i)
  {
    var n := |found| - 1;
    if found[n].driver == c.driverId {
      assert found[n].distanceM == c.distanceM ==> ReportedLast(found, c, n);
    } else {
      DistanceIsLast(found[..n], c, j);
      if i :| ReportedLast(found[..n], c, i) {
        assert ReportedLast(found, c, i);
      }
      if i :| ReportedLast(found, c, i) {
        assert ReportedLast(found[..n], c, i);
      }
    }
  }

  ghost predicate FoundAmong(k: Keys, found: seq<Near>, c: Ranking.Candidate, n: nat) {
    exists j: nat :: j < n && FoundOnline(k, found, c, j)
  }

  lemma {:induction false} OnlineNearbyIff(k: Keys, found: seq<Near>, n: nat, c: Ranking.Candidate)
    requires n <= |found|
    ensures c in OnlineNearby(k, found, n) <==> FoundAmong(k, found, c, n)
  {
    if n > 0 {
      OnlineNearbyIff(k, found, n - 1, c);
      if found[n - 1].driver == c.driverId {
        DistanceIsLast(found, c, n - 1);
      }
      LastFound(k, found, n, c);
      AmongOneMore(k, found, c, n);
    }
  }

  lemma AmongOneMore(k: Keys, found: seq<Near>, c: Ranking.Candidate, n: nat)
    requires n > 0
    ensures FoundAmong(k, found, c, n) <==> FoundAmong(k, found, c, n - 1) || FoundOnline(k, found, c, n - 1)
  {
    if FoundAmong(k, found, c, n - 1) {
      var j: nat :| j < n - 1 && FoundOnline(k, found, c, j);
      assert j < n;
    }
  }

  lemma LastFound(k: Keys, found: seq<Near>, n: nat, c: Ranking.Candidate)
    requires 0 < n <= |found|
    requires found[n - 1].driver == c.driverId ==>
               (DistanceOf(found, c.driverId) == c.distanceM <==> exists i :: ReportedLast(found, c, i))
    ensures c in OnlineNearby(k, found, n) <==> c in OnlineNearby(k, found, n - 1) || FoundOnline(k, found, c, n - 1)
  {
    var d := found[n - 1].driver;
    var last := Ranking.Candidate(d, RatingOf(k, d), DistanceOf(found, d));
    assert RatingOf(k, d) != 0.0 ==> OnlineNearby(k, found, n) == OnlineNearby(k, found, n - 1) + [last];
  }

  /** The pool of an answered discovery is exactly the drivers found online. */
  lemma {:induction false} NearbyPoolIff(k: Keys, attempt: int, round: Round, c: Ranking.Candidate)
    requires round.discovery.Nearby?
    ensures c in Pool(k, attempt, round) <==> FoundAmong(k, round.discovery.found, c, |round.discovery.found|)
  {
    var found := round.discovery.found;
    var cs := OnlineNearby(k, found, |found|);
    OnlineNearbyIff(k, found, |found|, c);
    Ranking.RankedIsPermutation(cs, true);
    SameMembers(Ranking.Ranked(cs, true), cs, c);
  }

  lemma SameMembers(xs: seq<Ranking.Candidate>, ys: seq<Ranking.Candidate>, c: Ranking.Candidate)
    requires multiset(xs) == multiset(ys)
    ensures c in xs <==> c in ys
  {
    assert c in xs <==> c in multiset(xs);
    assert c in ys <==> c in multiset(ys);
  }

  /** No driver found gets the offer while a free one who is no farther and rated no lower goes without. */
  lemma {:induction false} NearbyOffersRespectDominance(
      k: Keys, r: RideId, attempt: int, round: Round, x: Ranking.Candidate, y: Ranking.Candidate)
    requires round.discovery.Nearby? && y in Targets(k, r, attempt, round)
    requires x in Pool(k, attempt, round) && Free(k, r, x.driverId) && Ranking.Dominates(x, y)
    ensures x in Targets(k, r, attempt, round)
  {
    var cs := OnlineNearby(k, round.discovery.found, |round.discovery.found|);
    var pool := Ranking.Ranked(cs, true);
    Ranking.RankedIsPermutation(cs, true);
    SameMembers(pool, cs, x);
    SkippedIff(k, r, pool, x);
    Ranking.OffersRespectDominance(cs, OfferedMap(k, r), ExcludedMap(k, r, pool), BROADCAST_SIZE, x, y);
  }

  /** While fewer than five got an offer, no free driver of the pool goes without. */
  lemma {:induction false} NobodyLeftOut(k: Keys, r: RideId, attempt: int, round: Round, c: Ranking.Candidate)
    requires c in Pool(k, attempt, round) && Free(k, r, c.driverId) && |Targets(k, r, attempt, round)| < 5
    ensures c in Targets(k, r, attempt, round)
  {
    var pool := Pool(k, attempt, round);
    SkippedIff(k, r, pool, c);
    assert c in Ranking.Eligible(pool, OfferedMap(k, r), ExcludedMap(k, r, pool));
  }

  // ---- Giving up, cancelling, accepting -----------------------------------------------------------

  /** The failure is announced exactly when the broadcast fails a ride that was still searching. */
  lemma GivesUpIff(k: Keys, r: RideId, attempt: int, round: Round, targets: seq<Ranking.Candidate>)
    requires r in k.rides && !k.rides[r].status.Failed?
    ensures MatchingService.GivesUp(k, r, attempt, round) <==>
            r in BroadcastTo(k, r, attempt, round, targets).rides &&
            BroadcastTo(k, r, attempt, round, targets).rides[r].status.Failed?
  {
    MatchingRuns.BroadcastStatus(k, r, attempt, round, targets);
  }

  /** A cancelled ride is not retried, not offered and not accepted any more; other rides' entries stay. */
  lemma CancelEndsSearch(k: Keys, r: RideId)
    ensures var k' := Cancel(k, r);
      && k'.pending == k.pending - {r} && r in k'.cancelled
      && r in k'.rides && k'.rides[r].status.Cancelled?
      && k'.offers == k.offers && k'.accepted == k.accepted
      && forall d, u :: !AcceptReply(k', r, d, u).Won?
  {
  }

  lemma CancelledGetsNoOffers(k: Keys, r: RideId, attempt: int, round: Round, targets: seq<Ranking.Candidate>)
    requires r in k.rides && k.rides[r].status.Cancelled?
    ensures BroadcastTo(k, r, attempt, round, targets).offers == k.offers
    ensures !MatchingService.GivesUp(k, r, attempt, round)
  {
  }

  /** Only the user behind a driver who holds the ride's offer can take it, and only while it is there to be taken. */
  lemma AcceptWinsIff(k: Keys, r: RideId, d: DriverId, caller: UserId)
    ensures AcceptReply(k, r, d, caller).Won? <==>
      && d in k.users && k.users[d] == caller && r in k.rides && r !in k.cancelled && r !in k.accepted
      && d in k.offers && k.offers[d] == r
    ensures AcceptReply(k, r, d, caller).Forbidden? <==> !(d in k.users && k.users[d] == caller)
    ensures !AcceptReply(k, r, d, caller).Won? ==> Accept(k, r, d, caller) == k
  {
  }

  /** Everything that winning a ride writes: the claim, the ride, and the driver's way out of pool and offers. */
  lemma WinningWrites(k: Keys, r: RideId, d: DriverId, caller: UserId)
    requires AcceptReply(k, r, d, caller).Won?
    ensures var k' := Accept(k, r, d, caller);
      && k'.accepted == k.accepted[r := d]
      && r in k'.rides && k'.rides[r].status.Matched? && k'.rides[r].driver == Some(d)
      && (d in k.online ==> k'.rides[r].rating == k.online[d])
      && (forall q :: q != r && q in k.rides ==> q in k'.rides && k'.rides[q] == k.rides[q])
      && k'.pending == k.pending - {r} && k'.offers == k.offers - {d} && k'.online == k.online - {d}
      && k'.users == k.users && k'.cancelled == k.cancelled && k'.offered == k.offered && k'.counts == k.counts
  {
  }
}
