// The matching handlers as functions on the keys, each running to its end undisturbed.
module Matching {
  import opened Clock
  import opened MatchingKeys
  import Ranking

  const BROADCAST_SIZE := 5
  const POOL_WIDTH := 5
  const MAX_ATTEMPTS := 5
  const OFFER_TTL: Millis := 30_000
  const RATE_LIMIT := 3

  // ---- Accept --------------------------------------------------------------------------------

  datatype Reply = Won | Forbidden | NotFound | OfferGone | RideTaken

  function AcceptReply(k: Keys, r: RideId, d: DriverId, caller: UserId): Reply {
    if d !in k.users || k.users[d] != caller then Forbidden
    else if r !in k.rides then NotFound
    else if r in k.cancelled then OfferGone
    else if r in k.accepted then RideTaken
    else if d !in k.offers || k.offers[d] != r then OfferGone
    else Won
  }

  function Accept(k: Keys, r: RideId, d: DriverId, caller: UserId): Keys {
    if AcceptReply(k, r, d, caller).Won? then
      var claimed := SetAccepted(k, r, d);
      var matched := MarkMatched(claimed, r, d, RatingOf(claimed, d));
      RemoveOnline(ClearOffer(DeletePending(matched, r), d), d)
    else k
  }

  // ---- Cancel --------------------------------------------------------------------------------

  function Cancel(k: Keys, r: RideId): Keys {
    var blocked := DeletePending(SetCancelled(k, r), r);
    var restored :=
      if r in k.accepted && r in k.rides then AddOnline(blocked, k.accepted[r], k.rides[r].rating) else blocked;
    SetStatus(restored, r, Cancelled)
  }

  // ---- Broadcast -----------------------------------------------------------------------------

  /** The search radius of an attempt, in kilometres. */
  function Radius(attempt: int): int {
    var r := 5 + 2 * (attempt - 1);
    if r > 15 then 15 else r
  }

  datatype Near = Near(driver: DriverId, distanceM: int)

  /** What the location service answers; anything else than a list of drivers is `Unavailable`. */
  datatype Discovery = Nearby(found: seq<Near>) | Unavailable

  /** Where an error strikes: before anything was offered, or on the last write. */
  datatype Fault = NoFault | Early | Late

  /** The offers that break off: how many of the three commands for a driver get through. */
  type Cut = map<DriverId, nat>

  /** One broadcast's surroundings: the answer, the order of the online set, the errors, and the clock. */
  datatype Round = Round(discovery: Discovery, order: seq<DriverId>, fault: Fault, cut: Cut, now: Millis)

  /** A later entry for the same driver overwrites an earlier one. */
  function DistanceOf(found: seq<Near>, d: DriverId): int {
    if found == [] then 0
    else if found[|found| - 1].driver == d then found[|found| - 1].distanceM
    else DistanceOf(found[..|found| - 1], d)
  }

  /** The first `n` drivers found that are online: a rating of 0 means not online. */
  function OnlineNearby(k: Keys, found: seq<Near>, n: nat): (cs: seq<Ranking.Candidate>)
    requires n <= |found|
    ensures forall i :: 0 <= i < |cs| ==> cs[i].driverId in k.online
  {
    if n == 0 then []
    else
      var cs := OnlineNearby(k, found, n - 1);
      var d := found[n - 1].driver;
      if RatingOf(k, d) == 0.0 then cs
      else cs + [Ranking.Candidate(d, RatingOf(k, d), DistanceOf(found, d))]
  }

  /** The first `limit` members of the online set in its own order. */
  function TopOnline(k: Keys, order: seq<DriverId>, limit: int): (cs: seq<Ranking.Candidate>)
    ensures forall i :: 0 <= i < |cs| ==> cs[i].driverId in k.online
    ensures limit >= 0 ==> |cs| <= limit
  {
    if order == [] || limit <= 0 then []
    else if order[0] in k.online then
      [Ranking.Candidate(order[0], k.online[order[0]], 0)] + TopOnline(k, order[1..], limit - 1)
    else TopOnline(k, order[1..], limit)
  }

  function Pool(k: Keys, attempt: int, round: Round): seq<Ranking.Candidate> {
    match round.discovery
    case Nearby(found) => Ranking.Ranked(OnlineNearby(k, found, |found|), true)
    case Unavailable => Ranking.Ranked(TopOnline(k, round.order, attempt * POOL_WIDTH), false)
  }

  function OfferedMap(k: Keys, r: RideId): map<DriverId, bool> {
    map d | d in OfferedTo(k, r) :: true
  }

  predicate BusyOrLimited(k: Keys, d: DriverId) {
    d in k.offers || Count(k, d) >= RATE_LIMIT
  }

  function Drivers(cs: seq<Ranking.Candidate>): set<DriverId> {
    set c | c in cs :: c.driverId
  }

  /** Only candidates not offered before are looked up. */
  function ExcludedMap(k: Keys, r: RideId, cs: seq<Ranking.Candidate>): map<DriverId, bool> {
    map d | d in Drivers(cs) && d !in OfferedTo(k, r) && BusyOrLimited(k, d) :: true
  }

  function Targets(k: Keys, r: RideId, attempt: int, round: Round): seq<Ranking.Candidate> {
    var pool := Pool(k, attempt, round);
    Ranking.Capped(Ranking.Eligible(pool, OfferedMap(k, r), ExcludedMap(k, r, pool)), BROADCAST_SIZE)
  }

  function Reach(cut: Cut, d: DriverId): nat {
    if d in cut then cut[d] else 3
  }

  /** SET NX on the driver's slot, SADD to the ride's set, INCR of the count, as far as they get. */
  function OfferOne(k: Keys, r: RideId, d: DriverId, reach: nat): Keys {
    if reach == 0 || d in k.offers then k
    else if reach == 1 then SetOffer(k, r, d)
    else if reach == 2 then RecordOffer(SetOffer(k, r, d), r, d)
    else IncrementCount(RecordOffer(SetOffer(k, r, d), r, d), d)
  }

  function OfferAll(k: Keys, r: RideId, targets: seq<Ranking.Candidate>, cut: Cut): Keys {
    if targets == [] then k
    else
      var d := targets[|targets| - 1].driverId;
      OfferOne(OfferAll(k, r, targets[..|targets| - 1], cut), r, d, Reach(cut, d))
  }

  /** A broadcast reports an error for every offer that broke off, even though it went on with the others. */
  predicate BreaksOff(targets: seq<Ranking.Candidate>, cut: Cut) {
    exists i :: 0 <= i < |targets| && Reach(cut, targets[i].driverId) < 3
  }

  predicate Arms(k: Keys, r: RideId, attempt: int) {
    r in k.rides && k.rides[r].status.Searching? && attempt <= MAX_ATTEMPTS
  }

  predicate Succeeds(k: Keys, r: RideId, attempt: int, round: Round, targets: seq<Ranking.Candidate>) {
    round.fault.NoFault? && (Arms(k, r, attempt) ==> !BreaksOff(targets, round.cut))
  }

  /** One broadcast that picked `targets`. */
  function BroadcastTo(k: Keys, r: RideId, attempt: int, round: Round, targets: seq<Ranking.Candidate>): Keys {
    if round.fault.Early? then k
    else if r !in k.rides || !k.rides[r].status.Searching? then
      if round.fault.Late? then k else DeletePending(k, r)
    else if attempt > MAX_ATTEMPTS then
      var failed := SetStatus(k, r, Failed);
      if round.fault.Late? then failed else DeletePending(failed, r)
    else
      var offered := OfferAll(k, r, targets, round.cut);
      if round.fault.Late? then offered else SetPending(offered, r, Pending(attempt, round.now + OFFER_TTL))
  }

  /** The retry worker on one pending ride, when the broadcast picks `targets`. */
  function RetryTo(k: Keys, r: RideId, p: Pending, round: Round, targets: seq<Ranking.Candidate>): Keys {
    if r in k.accepted then DeletePending(k, r)
    else if round.now < p.deadline then k
    else BroadcastTo(k, r, p.attempt + 1, round, targets)
  }

  // ---- What one broadcast may do ------------------------------------------------------------

  /** The two maps skip exactly the drivers that got an offer before, hold one now, or had their three. */
  lemma {:induction false} SkippedIff(k: Keys, r: RideId, pool: seq<Ranking.Candidate>, c: Ranking.Candidate)
    requires c in pool
    ensures Ranking.Skipped(c, OfferedMap(k, r), ExcludedMap(k, r, pool)) <==>
              c.driverId in OfferedTo(k, r) || BusyOrLimited(k, c.driverId)
  {
    assert c.driverId in Drivers(pool);
  }

  /** A driver who may be offered the ride. */
  predicate Free(k: Keys, r: RideId, d: DriverId) {
    d in k.online && d !in OfferedTo(k, r) && d !in k.offers && Count(k, d) < RATE_LIMIT
  }

  predicate FreeTargets(k: Keys, r: RideId, targets: seq<Ranking.Candidate>) {
    |targets| <= BROADCAST_SIZE && forall i :: 0 <= i < |targets| ==> Free(k, r, targets[i].driverId)
  }

  /** Every target is online, was not offered the ride, holds no offer and is below the rate limit. */
  lemma {:induction false} TargetsAreFree(k: Keys, r: RideId, attempt: int, round: Round)
    ensures FreeTargets(k, r, Targets(k, r, attempt, round))
  {
    var pool := Pool(k, attempt, round);
    forall t | t in Targets(k, r, attempt, round) ensures Free(k, r, t.driverId) {
      assert t in Ranking.Eligible(pool, OfferedMap(k, r), ExcludedMap(k, r, pool));
      InPoolIsOnline(k, attempt, round, t);
      SkippedIff(k, r, pool, t);
    }
  }

  lemma InPoolIsOnline(k: Keys, attempt: int, round: Round, c: Ranking.Candidate)
    requires c in Pool(k, attempt, round)
    ensures c.driverId in k.online
  {
    match round.discovery
    case Nearby(found) =>
      Ranking.RankedIsPermutation(OnlineNearby(k, found, |found|), true);
      assert c in multiset(OnlineNearby(k, found, |found|));
    case Unavailable =>
      Ranking.RankedIsPermutation(TopOnline(k, round.order, attempt * POOL_WIDTH), false);
      assert c in multiset(TopOnline(k, round.order, attempt * POOL_WIDTH));
  }

  /** What a broadcast's offers may touch: offers to the targets, and nothing that decides a ride. */
  ghost predicate OnlyOffers(k: Keys, k': Keys, r: RideId, targets: seq<Ranking.Candidate>) {
    && k'.users == k.users && k'.online == k.online && k'.rides == k.rides
    && k'.cancelled == k.cancelled && k'.accepted == k.accepted && k'.pending == k.pending
    && (forall d :: d in k.offers ==> d in k'.offers && k'.offers[d] == k.offers[d])
    && (forall d :: d in k'.offers && d !in k.offers ==> k'.offers[d] == r && Chosen(targets, d))
  }

  predicate Chosen(targets: seq<Ranking.Candidate>, d: DriverId) {
    exists i :: 0 <= i < |targets| && targets[i].driverId == d
  }

  /** One offer: nothing but the slot, the ride's set and the count, and only if the slot was free. */
  lemma OneOffer(k: Keys, r: RideId, d: DriverId, reach: nat)
    ensures var k' := OfferOne(k, r, d, reach);
      && k' == k.(offers := k'.offers, offered := k'.offered, counts := k'.counts)
      && ((k'.offers == k.offers && k'.counts == k.counts) || (d !in k.offers && k'.offers == k.offers[d := r]))
      && (k'.counts == k.counts || k'.counts == k.counts[d := Count(k, d) + 1])
  {
    if reach != 0 && d !in k.offers {
      var slot := k.(offers := k.offers[d := r]);
      assert SetOffer(k, r, d) == slot;
      if reach >= 2 {
        SetThenCount(slot, r, d);
      }
    }
  }

  lemma SetThenCount(k: Keys, r: RideId, d: DriverId)
    ensures var recorded := RecordOffer(k, r, d);
      recorded == k.(offered := recorded.offered) && IncrementCount(recorded, d) == recorded.(counts := k.counts[d := Count(k, d) + 1])
  {
  }

  lemma {:induction false} OffersOnly(k: Keys, r: RideId, targets: seq<Ranking.Candidate>, cut: Cut)
    ensures OnlyOffers(k, OfferAll(k, r, targets, cut), r, targets)
  {
    if targets != [] {
      var last, d := |targets| - 1, targets[|targets| - 1].driverId;
      var before := OfferAll(k, r, targets[..last], cut);
      OffersOnly(k, r, targets[..last], cut);
      OneOffer(before, r, d, Reach(cut, d));
      OneMoreOffer(k, before, OfferOne(before, r, d, Reach(cut, d)), r, targets);
    }
  }

  lemma OneMoreOffer(k: Keys, before: Keys, k': Keys, r: RideId, targets: seq<Ranking.Candidate>)
    requires targets != [] && OnlyOffers(k, before, r, targets[..|targets| - 1])
    requires k' == before.(offers := k'.offers, offered := k'.offered, counts := k'.counts)
    requires var d := targets[|targets| - 1].driverId;
      k'.offers == before.offers || (d !in before.offers && k'.offers == before.offers[d := r])
    ensures OnlyOffers(k, k', r, targets)
  {
    var last := |targets| - 1;
    forall d | d in k'.offers && d !in k.offers ensures k'.offers[d] == r && Chosen(targets, d) {
      if d in before.offers {
        ChosenLater(targets, last, d);
      } else {
        assert targets[last].driverId == d;
      }
    }
  }

  lemma ChosenLater(targets: seq<Ranking.Candidate>, n: nat, d: DriverId)
    requires n <= |targets| && Chosen(targets[..n], d)
    ensures Chosen(targets, d)
  {
    var i :| 0 <= i < n && targets[..n][i].driverId == d;
    assert targets[i].driverId == d;
  }

  ghost predicate PoolKept(k: Keys, k': Keys) {
    k'.users == k.users && k'.online == k.online && k'.cancelled == k.cancelled && k'.accepted == k.accepted
  }

  ghost predicate RidesKept(k: Keys, k': Keys, r: RideId) {
    && k'.rides.Keys == k.rides.Keys
    && (forall q :: q in k.rides ==> k'.rides[q].rating == k.rides[q].rating && k'.rides[q].driver == k.rides[q].driver)
    && (forall q :: q in k.rides && q != r ==> k'.rides[q] == k.rides[q])
  }

  ghost predicate PendingKept(k: Keys, k': Keys, r: RideId) {
    forall q :: q != r ==> (q in k'.pending <==> q in k.pending) && (q in k.pending ==> k'.pending[q] == k.pending[q])
  }

  ghost predicate FreshOffers(k: Keys, k': Keys, r: RideId) {
    forall d :: d in k'.offers && d !in k.offers ==> d in k.online && k'.offers[d] == r
  }

  ghost predicate Frame(k: Keys, k': Keys, r: RideId) {
    PoolKept(k, k') && RidesKept(k, k', r) && PendingKept(k, k', r) && FreshOffers(k, k', r)
  }

  lemma OffersFrame(k: Keys, r: RideId, targets: seq<Ranking.Candidate>, cut: Cut)
    requires FreeTargets(k, r, targets)
    ensures Frame(k, OfferAll(k, r, targets, cut), r)
    ensures OfferAll(k, r, targets, cut).rides == k.rides && OfferAll(k, r, targets, cut).pending == k.pending
  {
    OffersOnly(k, r, targets, cut);
  }

  lemma DeleteFrame(k: Keys, k': Keys, r: RideId)
    requires Frame(k, k', r)
    ensures Frame(k, DeletePending(k', r), r)
  {
    assert PendingKept(k, DeletePending(k', r), r);
    assert RidesKept(k, DeletePending(k', r), r);
  }

  lemma ArmFrame(k: Keys, k': Keys, r: RideId, p: Pending)
    requires Frame(k, k', r)
    ensures Frame(k, SetPending(k', r, p), r)
  {
    assert PendingKept(k, SetPending(k', r, p), r);
    assert RidesKept(k, SetPending(k', r, p), r);
  }

  lemma FailFrame(k: Keys, r: RideId)
    requires r in k.rides
    ensures Frame(k, SetStatus(k, r, Failed), r)
  {
    assert RidesKept(k, SetStatus(k, r, Failed), r);
  }

  lemma ArmingFrame(k: Keys, r: RideId, attempt: int, round: Round, targets: seq<Ranking.Candidate>)
    requires FreeTargets(k, r, targets) && Arms(k, r, attempt) && !round.fault.Early?
    ensures Frame(k, BroadcastTo(k, r, attempt, round, targets), r)
  {
    OffersFrame(k, r, targets, round.cut);
    ArmFrame(k, OfferAll(k, r, targets, round.cut), r, Pending(attempt, round.now + OFFER_TTL));
  }

  lemma DisarmingFrame(k: Keys, r: RideId, attempt: int, round: Round, targets: seq<Ranking.Candidate>)
    requires !Arms(k, r, attempt) && !round.fault.Early?
    ensures Frame(k, BroadcastTo(k, r, attempt, round, targets), r)
  {
    if r !in k.rides || !k.rides[r].status.Searching? {
      DeleteFrame(k, k, r);
    } else {
      FailFrame(k, r);
      DeleteFrame(k, SetStatus(k, r, Failed), r);
    }
  }

  /** What a broadcast leaves alone, whatever its outcome; and it offers to online drivers only. */
  lemma BroadcastFrame(k: Keys, r: RideId, attempt: int, round: Round, targets: seq<Ranking.Candidate>)
    requires FreeTargets(k, r, targets)
    ensures Frame(k, BroadcastTo(k, r, attempt, round, targets), r)
  {
    if round.fault.Early? {
      assert BroadcastTo(k, r, attempt, round, targets) == k;
    } else if Arms(k, r, attempt) {
      ArmingFrame(k, r, attempt, round, targets);
    } else {
      DisarmingFrame(k, r, attempt, round, targets);
    }
  }

  /** An error disarms nothing; without one the retry is armed, or the ride needs none and it is dropped. */
  lemma BroadcastArms(k: Keys, r: RideId, attempt: int, round: Round, targets: seq<Ranking.Candidate>)
    ensures BroadcastTo(k, r, attempt, round, targets).pending ==
      if !round.fault.NoFault? then k.pending
      else if Arms(k, r, attempt) then k.pending[r := Pending(attempt, round.now + OFFER_TTL)]
      else k.pending - {r}
  {
    if Arms(k, r, attempt) && !round.fault.Early? {
      OffersOnly(k, r, targets, round.cut);
    } else if round.fault.NoFault? {
      assert BroadcastTo(k, r, attempt, round, targets) == DeletePending(k, r) ||
             BroadcastTo(k, r, attempt, round, targets) == DeletePending(SetStatus(k, r, Failed), r);
    }
  }

  /** An offer counts once, and a driver who got one cannot get another from the same round. */
  predicate CountedOnce(k: Keys, k': Keys, targets: seq<Ranking.Candidate>, d: DriverId) {
    Count(k', d) == Count(k, d) ||
    (Count(k', d) == Count(k, d) + 1 && d !in k.offers && d in k'.offers && Chosen(targets, d))
  }

  lemma {:induction false} OffersCountedOnce(k: Keys, r: RideId, targets: seq<Ranking.Candidate>, cut: Cut, d: DriverId)
    ensures CountedOnce(k, OfferAll(k, r, targets, cut), targets, d)
  {
    if targets != [] {
      var last, e := |targets| - 1, targets[|targets| - 1].driverId;
      var before := OfferAll(k, r, targets[..last], cut);
      OffersCountedOnce(k, r, targets[..last], cut, d);
      OffersOnly(k, r, targets[..last], cut);
      OneOffer(before, r, e, Reach(cut, e));
      OneMoreCount(k, before, OfferOne(before, r, e, Reach(cut, e)), r, targets, d);
    }
  }

  lemma OneMoreCount(k: Keys, before: Keys, k': Keys, r: RideId, targets: seq<Ranking.Candidate>, d: DriverId)
    requires targets != [] && CountedOnce(k, before, targets[..|targets| - 1], d)
    requires OnlyOffers(k, before, r, targets[..|targets| - 1])
    requires var e := targets[|targets| - 1].driverId;
      && ((k'.offers == before.offers && k'.counts == before.counts) ||
          (e !in before.offers && k'.offers == before.offers[e := r]))
      && (k'.counts == before.counts || k'.counts == before.counts[e := Count(before, e) + 1])
    ensures CountedOnce(k, k', targets, d)
  {
    var last := |targets| - 1;
    if Chosen(targets[..last], d) {
      ChosenLater(targets, last, d);
    }
    assert targets[last].driverId == d ==> Chosen(targets, d);
  }

  /** No round pushes a driver past the rate limit. */
  lemma BroadcastKeepsRateLimit(
      k: Keys, r: RideId, attempt: int, round: Round, targets: seq<Ranking.Candidate>, d: DriverId)
    requires Count(k, d) <= RATE_LIMIT && FreeTargets(k, r, targets)
    ensures Count(BroadcastTo(k, r, attempt, round, targets), d) <= RATE_LIMIT
  {
    BroadcastCounts(k, r, attempt, round, targets);
    OffersCountedOnce(k, r, targets, round.cut, d);
  }

  lemma BroadcastCounts(k: Keys, r: RideId, attempt: int, round: Round, targets: seq<Ranking.Candidate>)
    ensures var counts := BroadcastTo(k, r, attempt, round, targets).counts;
      counts == k.counts || counts == OfferAll(k, r, targets, round.cut).counts
  {
    if round.fault.Early? {
    } else if r !in k.rides || !k.rides[r].status.Searching? {
      assert BroadcastTo(k, r, attempt, round, targets).counts == k.counts;
    } else if attempt > MAX_ATTEMPTS {
      assert BroadcastTo(k, r, attempt, round, targets).counts == k.counts;
    } else {
      assert BroadcastTo(k, r, attempt, round, targets).counts == OfferAll(k, r, targets, round.cut).counts;
    }
  }
}
