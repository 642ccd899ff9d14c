// The matching handlers as they run: one Redis command after the other. Each is proved against its
// function in Matching.
module MatchingService {
  import opened MatchingKeys
  import opened Matching
  import Ranking

  datatype RideAccepted = RideAccepted(ride: RideId, driver: DriverId)

  class Matcher {
    var keys: Keys
    /** ride.accepted and ride.matching_failed, as far as the broker took them. */
    var accepted: seq<RideAccepted>
    var failed: seq<RideId>

    constructor (keys: Keys)
      ensures this.keys == keys && accepted == [] && failed == []
    {
      this.keys := keys;
      accepted, failed := [], [];
    }

    // ---- Repositories ------------------------------------------------------------------------

    /** SET NX answers whether it was the first. */
    method TryAccept(r: RideId, d: DriverId) returns (won: bool)
      modifies this`keys
      ensures won <==> r !in old(keys).accepted
      ensures keys == SetAccepted(old(keys), r, d)
    {
      won := r !in keys.accepted;
      if won {
        keys := keys.(accepted := keys.accepted[r := d]);
      }
    }

    /** `reach` says how many of the commands get through. */
    method TryOffer(r: RideId, d: DriverId, reach: nat) returns (ok: bool, err: bool)
      modifies this`keys
      ensures ok <==> reach > 0 && d !in old(keys).offers
      ensures err <==> reach == 0 || (ok && reach == 1)
      ensures keys == OfferOne(old(keys), r, d, if reach < 2 then reach else 2)
    {
      if reach == 0 {
        return false, true;
      }
      if d in keys.offers {
        return false, false;
      }
      keys := keys.(offers := keys.offers[d := r]);
      if reach == 1 {
        return true, true;
      }
      keys := RecordOffer(keys, r, d);
      return true, false;
    }

    method TopOnlineDrivers(order: seq<DriverId>, limit: int) returns (cs: seq<Ranking.Candidate>)
      ensures cs == TopOnline(keys, order, limit)
    {
      cs := [];
      var i := 0;
      while i < |order| && |cs| < limit
        invariant 0 <= i <= |order|
        invariant cs + TopOnline(keys, order[i..], limit - |cs|) == TopOnline(keys, order, limit)
      {
        var d := order[i];
        assert order[i..][1..] == order[i + 1..];
        if d in keys.online {
          var c := Ranking.Candidate(d, keys.online[d], 0);
          assert cs + ([c] + TopOnline(keys, order[i + 1..], limit - |cs| - 1)) ==
                 (cs + [c]) + TopOnline(keys, order[i + 1..], limit - |cs| - 1);
          cs := cs + [c];
        }
        i := i + 1;
      }
    }

    // ---- AcceptRide --------------------------------------------------------------------------

    method AcceptRide(r: RideId, d: DriverId, caller: UserId, brokerUp: bool) returns (reply: Reply)
      modifies this
      ensures reply == AcceptReply(old(keys), r, d, caller) && keys == Accept(old(keys), r, d, caller)
      ensures accepted == old(accepted) + (if reply.Won? && brokerUp then [RideAccepted(r, d)] else [])
      ensures failed == old(failed)
    {
      if d !in keys.users || keys.users[d] != caller {
        return Forbidden;
      }
      if r !in keys.rides {
        return NotFound;
      }
      if r in keys.cancelled {
        return OfferGone;
      }
      if r in keys.accepted {
        return RideTaken;
      }
      if d !in keys.offers || keys.offers[d] != r {
        return OfferGone;
      }
      // Nothing else runs in between, so the claim that was free a moment ago still is.
      var won := TryAccept(r, d);
      var rating := RatingOf(keys, d);
      keys := MarkMatched(keys, r, d, rating);
      keys := DeletePending(keys, r);
      keys := ClearOffer(keys, d);
      keys := RemoveOnline(keys, d);
      if brokerUp {
        accepted := accepted + [RideAccepted(r, d)];
      }
      return Won;
    }

    // ---- CancelRide --------------------------------------------------------------------------

    method CancelRide(r: RideId)
      modifies this`keys
      ensures keys == Cancel(old(keys), r)
    {
      keys := SetCancelled(keys, r);
      keys := DeletePending(keys, r);
      if r in keys.accepted {
        var d := keys.accepted[r];
        if r in keys.rides {
          keys := AddOnline(keys, d, keys.rides[r].rating);
        }
      }
      keys := SetStatus(keys, r, Cancelled);
    }

    // ---- BroadcastOffers ---------------------------------------------------------------------

    method RadiusForAttempt(attempt: int) returns (km: int)
      ensures km == Radius(attempt)
      ensures 1 <= attempt <= MAX_ATTEMPTS ==> km == 3 + 2 * attempt < 15
      ensures attempt > MAX_ATTEMPTS ==> km == 15
    {
      km := 5 + (attempt - 1) * 2;
      if km > 15 {
        return 15;
      }
    }

    method DistanceByDriver(found: seq<Near>) returns (distances: map<DriverId, int>)
      ensures forall j :: 0 <= j < |found| ==>
                found[j].driver in distances && distances[found[j].driver] == DistanceOf(found, found[j].driver)
    {
      distances := map[];
      var i := 0;
      while i < |found|
        invariant 0 <= i <= |found|
        invariant forall j :: 0 <= j < i ==> found[j].driver in distances
        invariant forall d :: d in distances ==> distances[d] == DistanceOf(found[..i], d)
      {
        distances := distances[found[i].driver := found[i].distanceM];
        assert found[..i + 1][..i] == found[..i];
        i := i + 1;
      }
      assert found[..i] == found;
    }

    /** The drivers found that the online set knows, with its ratings. */
    method IntersectOnline(found: seq<Near>) returns (candidates: seq<Ranking.Candidate>)
      ensures candidates == OnlineNearby(keys, found, |found|)
    {
      var distances := DistanceByDriver(found);
      candidates := [];
      var i := 0;
      while i < |found|
        invariant 0 <= i <= |found|
        invariant candidates == OnlineNearby(keys, found, i)
      {
        var d := found[i].driver;
        var rating := RatingOf(keys, d);
        if rating != 0.0 {
          candidates := candidates + [Ranking.Candidate(d, rating, distances[d])];
        }
        i := i + 1;
      }
    }

    method TryLocationDiscovery(answer: Discovery) returns (ranked: seq<Ranking.Candidate>, ok: bool)
      ensures ok <==> answer.Nearby?
      ensures ok ==> ranked == Ranking.Ranked(OnlineNearby(keys, answer.found, |answer.found|), true)
    {
      if answer.Unavailable? {
        return [], false;
      }
      var candidates := IntersectOnline(answer.found);
      ranked := Ranking.RankCandidates(candidates, true);
      return ranked, true;
    }

    method SelectCandidates(attempt: int, round: Round) returns (pool: seq<Ranking.Candidate>)
      ensures pool == Pool(keys, attempt, round)
    {
      var ok;
      pool, ok := TryLocationDiscovery(round.discovery);
      if ok {
        return;
      }
      var top := TopOnlineDrivers(round.order, attempt * POOL_WIDTH);
      pool := Ranking.RankCandidates(top, false);
    }

    /** The busy and rate checks, over the candidates not offered before. */
    method FindExcluded(r: RideId, pool: seq<Ranking.Candidate>) returns (excluded: map<DriverId, bool>)
      ensures excluded == ExcludedMap(keys, r, pool)
    {
      excluded := map[];
      var i := 0;
      while i < |pool|
        invariant 0 <= i <= |pool|
        invariant excluded == ExcludedMap(keys, r, pool[..i])
      {
        var d := pool[i].driverId;
        assert pool[..i + 1] == pool[..i] + [pool[i]];
        assert Drivers(pool[..i + 1]) == Drivers(pool[..i]) + {d} by {
          assert pool[i] in pool[..i + 1];
        }
        if d !in OfferedTo(keys, r) {
          if d in keys.offers {
            excluded := excluded[d := true];
          } else if Count(keys, d) >= RATE_LIMIT {
            excluded := excluded[d := true];
          }
        }
        i := i + 1;
      }
      assert pool[..i] == pool;
    }

    /** Every target is tried, whatever happens to the others. */
    method OfferToAll(r: RideId, targets: seq<Ranking.Candidate>, cut: Cut)
      modifies this`keys
      ensures keys == OfferAll(old(keys), r, targets, cut)
    {
      var i := 0;
      while i < |targets|
        invariant 0 <= i <= |targets|
        invariant keys == OfferAll(old(keys), r, targets[..i], cut)
      {
        assert targets[..i + 1][..i] == targets[..i];
        var d := targets[i].driverId;
        var ok, err := TryOffer(r, d, Reach(cut, d));
        if !err && ok && Reach(cut, d) > 2 {
          keys := IncrementCount(keys, d);
        }
        i := i + 1;
      }
      assert targets[..i] == targets;
    }

    method BroadcastOffers(r: RideId, attempt: int, round: Round, brokerUp: bool) returns (err: bool)
      modifies this
      ensures keys == BroadcastTo(old(keys), r, attempt, round, Targets(old(keys), r, attempt, round))
      ensures err <==> !Succeeds(old(keys), r, attempt, round, Targets(old(keys), r, attempt, round))
      ensures accepted == old(accepted)
      ensures failed == old(failed) + (if GivesUp(old(keys), r, attempt, round) && brokerUp then [r] else [])
    {
      if round.fault.Early? {
        return true;
      }
      if r !in keys.rides || !keys.rides[r].status.Searching? {
        if round.fault.Late? {
          return true;
        }
        keys := DeletePending(keys, r);
        return false;
      }
      if attempt > MAX_ATTEMPTS {
        keys := SetStatus(keys, r, Failed);
        if brokerUp {
          failed := failed + [r];
        }
        if round.fault.Late? {
          return true;
        }
        keys := DeletePending(keys, r);
        return false;
      }
      var pool := SelectCandidates(attempt, round);
      var excluded := FindExcluded(r, pool);
      var targets := Ranking.SelectOfferTargets(pool, OfferedMap(keys, r), excluded, BROADCAST_SIZE);
      OfferToAll(r, targets, round.cut);
      if round.fault.Late? {
        return true;
      }
      keys := SetPending(keys, r, Pending(attempt, round.now + OFFER_TTL));
      return BreaksOff(targets, round.cut);
    }

    // ---- The retry worker --------------------------------------------------------------------

    method RetryOne(r: RideId, p: Pending, round: Round, brokerUp: bool)
      modifies this
      ensures keys == RetryTo(old(keys), r, p, round, Targets(old(keys), r, p.attempt + 1, round))
      ensures keys == Retried(old(keys), r, p, round)
      ensures accepted == old(accepted)
      ensures failed == old(failed) +
        (if RetryIsDue(old(keys), r, p, round) && GivesUp(old(keys), r, p.attempt + 1, round) && brokerUp then [r] else [])
    {
      if r in keys.accepted {
        keys := DeletePending(keys, r);
        return;
      }
      if round.now < p.deadline {
        return;
      }
      // The worker logs the error; the entry, still there or armed again, is its next chance.
      var _ := BroadcastOffers(r, p.attempt + 1, round, brokerUp);
    }

    /** One sweep over the entries listed at its start, `rounds` giving each its surroundings. */
    method Sweep(listed: seq<RideId>, rounds: map<RideId, Round>, brokerUp: bool)
      requires forall r :: r in listed ==> r in rounds && r in keys.pending
      modifies this
      ensures keys == SweepAll(old(keys), listed, RetryListed(old(keys).pending, rounds))
      ensures accepted == old(accepted)
    {
      var entries := keys.pending;
      ghost var retry := RetryListed(entries, rounds);
      var i := 0;
      while i < |listed|
        invariant 0 <= i <= |listed|
        invariant keys == SweepAll(old(keys), listed[..i], retry)
        invariant accepted == old(accepted)
      {
        assert listed[..i + 1][..i] == listed[..i];
        RetryOne(listed[i], entries[listed[i]], rounds[listed[i]], brokerUp);
        i := i + 1;
      }
      assert listed[..i] == listed;
    }
  }

  /** A broadcast that fails the ride announces it. */
  predicate GivesUp(k: Keys, r: RideId, attempt: int, round: Round) {
    !round.fault.Early? && r in k.rides && k.rides[r].status.Searching? && attempt > MAX_ATTEMPTS
  }

  predicate RetryIsDue(k: Keys, r: RideId, p: Pending, round: Round) {
    r !in k.accepted && round.now >= p.deadline
  }

  function Retried(k: Keys, r: RideId, p: Pending, round: Round): Keys {
    RetryTo(k, r, p, round, Targets(k, r, p.attempt + 1, round))
  }

  /** What the sweep does to one listed ride, by the entry as it was listed. */
  function RetryListed(entries: map<RideId, Pending>, rounds: map<RideId, Round>): (Keys, RideId) -> Keys {
    (k, r) => if r in entries && r in rounds then Retried(k, r, entries[r], rounds[r]) else k
  }

  function SweepAll(k: Keys, listed: seq<RideId>, retry: (Keys, RideId) -> Keys): Keys {
    if listed == [] then k
    else retry(SweepAll(k, listed[..|listed| - 1], retry), listed[|listed| - 1])
  }

  predicate SameEntry(k: Keys, k': Keys, q: RideId) {
    q in k.pending && q in k'.pending && k'.pending[q] == k.pending[q]
  }

  /**
   * Retrying one ride leaves the entries of the others alone, whatever it offers to whom, so that each
   * retry of a sweep sees its own entry as it was listed.
   */
  lemma {:induction false} RetryLeavesOthers(
      k: Keys, r: RideId, p: Pending, round: Round, targets: seq<Ranking.Candidate>, q: RideId)
    requires q != r && q in k.pending
    ensures SameEntry(k, RetryTo(k, r, p, round, targets), q)
  {
    if r !in k.accepted && round.now >= p.deadline {
      BroadcastArms(k, r, p.attempt + 1, round, targets);
    }
  }
}
