// A run in which a repeated cancellation breaks the pool: its driver is already out with another client,
// and goes back online while he drives.
module CancelTwice {
  import opened Wrappers
  import opened MatchingKeys
  import opened Matching
  import opened MatchingRuns
  import Ranking

  const POOL: map<DriverId, real> := map[5 := 4.5]
  const DRIVER := Ranking.Candidate(5, 4.5, 0)

  /** A broadcast without the location service: the online set holds one driver. */
  function Call(now: int): Round {
    Round(Unavailable, [5], NoFault, map[], now)
  }

  /** Ride 1 is accepted and cancelled, ride 2 goes to the same driver, and ride 1 is cancelled again. */
  const STEPS: seq<Step> := [
    Request(1), FirstBroadcast(1, Call(0), [DRIVER]), AcceptBy(1, 5, 50), CancelRide(1),
    Request(2), FirstBroadcast(2, Call(1), [DRIVER]), AcceptBy(2, 5, 50)]

  const EMPTY := Keys(map[5 := 50], POOL, map[], {}, map[], map[], map[], map[], map[])

  const NEW := RideHash(RideStatus.Searching, None, 0.0)
  const TAKEN := RideHash(RideStatus.Matched, Some(5), 4.5)
  const DROPPED := RideHash(RideStatus.Cancelled, Some(5), 4.5)

  const ASKED := EMPTY.(rides := map[1 := NEW])
  const OFFERED := ASKED.(offers := map[5 := 1], offered := map[1 := {5}], counts := map[5 := 1],
                          pending := map[1 := Pending(1, OFFER_TTL)])
  const ACCEPTED := OFFERED.(accepted := map[1 := 5], rides := map[1 := TAKEN], offers := map[], pending := map[], online := map[])
  const CANCELLED := ACCEPTED.(cancelled := {1}, rides := map[1 := DROPPED], online := POOL)
  const ASKED_AGAIN := CANCELLED.(rides := map[1 := DROPPED, 2 := NEW])
  const OFFERED_AGAIN := ASKED_AGAIN.(offers := map[5 := 2], offered := map[1 := {5}, 2 := {5}], counts := map[5 := 2],
                                      pending := map[2 := Pending(1, 1 + OFFER_TTL)])
  const DRIVING := OFFERED_AGAIN.(accepted := map[1 := 5, 2 := 5], rides := map[1 := DROPPED, 2 := TAKEN],
                                  offers := map[], pending := map[], online := map[])

  function At(k: nat): World {
    match k
    case 0 => World(EMPTY, {})
    case 1 => World(ASKED, {1})
    case 2 => World(OFFERED, {})
    case 3 => World(ACCEPTED, {})
    case 4 => World(CANCELLED, {})
    case 5 => World(ASKED_AGAIN, {2})
    case 6 => World(OFFERED_AGAIN, {})
    case _ => World(DRIVING, {})
  }

  lemma Asks()
    ensures Next(At(0), STEPS[0]) == At(1) && Next(At(4), STEPS[4]) == At(5)
  {
  }

  lemma OfferReaches(k: Keys, r: RideId, now: int)
    requires 5 !in k.offers
    ensures OfferAll(k, r, [DRIVER], Call(now).cut) == IncrementCount(RecordOffer(SetOffer(k, r, 5), r, 5), 5)
  {
    var targets, cut := [DRIVER], Call(now).cut;
    assert targets[..0] == [];
    assert OfferAll(k, r, targets[..0], cut) == k;
  }

  lemma Offers()
    ensures Next(At(1), STEPS[1]) == At(2)
  {
    OfferReaches(ASKED, 1, 0);
    assert OfferedTo(SetOffer(ASKED, 1, 5), 1) + {5} == {5};
    assert IncrementCount(RecordOffer(SetOffer(ASKED, 1, 5), 1, 5), 5) == OFFERED.(pending := map[]);
  }

  lemma OffersAgain()
    ensures Next(At(5), STEPS[5]) == At(6)
  {
    OfferReaches(ASKED_AGAIN, 2, 1);
    assert OfferedTo(SetOffer(ASKED_AGAIN, 2, 5), 2) + {5} == {5};
    assert IncrementCount(RecordOffer(SetOffer(ASKED_AGAIN, 2, 5), 2, 5), 5) == OFFERED_AGAIN.(pending := map[]);
  }

  lemma Accepts()
    ensures Next(At(2), STEPS[2]) == At(3)
  {
  }

  lemma AcceptsAgain()
    ensures Next(At(6), STEPS[6]) == At(7)
  {
  }

  lemma Cancels()
    ensures Next(At(3), STEPS[3]) == At(4)
  {
  }

  lemma {:induction false} RunIs(k: nat)
    requires k <= 7
    ensures Run(At(0), STEPS[..k]) == At(k)
  {
    if k > 0 {
      RunIs(k - 1);
      assert STEPS[..k][..k - 1] == STEPS[..k - 1];
      StepIs(k - 1);
    }
  }

  lemma StepIs(k: nat)
    requires k < 7
    ensures Next(At(k), STEPS[k]) == At(k + 1)
  {
    match k
    case 0 => Asks();
    case 1 => Offers();
    case 2 => Accepts();
    case 3 => Cancels();
    case 4 => Asks();
    case 5 => OffersAgain();
    case 6 => AcceptsAgain();
  }

  /** From an opening with one driver online: conserved until then, and no longer after the second cancellation. */
  lemma {:induction false} RepeatedCancelHappens()
    ensures Opening(At(0).keys) && At(0).keys.online == POOL
    ensures var k := Run(At(0), STEPS).keys;
      && Conserved(k, POOL) && 1 in k.cancelled && 1 in k.accepted && Away(k, k.accepted[1])
      && !Conserved(Cancel(k, 1), POOL)
  {
    RunIs(7);
    assert STEPS[..7] == STEPS;
    DriversAreConserved(At(0), STEPS);
    assert HoldsRide(DRIVING, 5, 2);
    RepeatedCancelConservesIff(DRIVING, 1, POOL);
  }

  lemma RankedAlone(c: Ranking.Candidate)
    ensures Ranking.Ranked([c], false) == [c]
  {
    Ranking.RankedIsPermutation([c], false);
    var r := Ranking.Ranked([c], false);
    assert r[0] in multiset(r);
  }

  lemma EligibleAlone(c: Ranking.Candidate, offered: map<DriverId, bool>, excluded: map<DriverId, bool>)
    requires !Ranking.Skipped(c, offered, excluded)
    ensures Ranking.Eligible([c], offered, excluded) == [c]
  {
    assert [c][..0] == [];
    assert Ranking.Eligible([], offered, excluded) == [];
  }

  lemma OnlyOneOnline(k: Keys)
    requires k.online == POOL
    ensures TopOnline(k, [5], POOL_WIDTH) == [DRIVER]
  {
    assert [5][1..] == [];
    assert TopOnline(k, [], POOL_WIDTH - 1) == [];
  }

  /** The broadcasts of the run offer to the very driver that the handler picks. */
  lemma {:induction false} HandlerPicksDriver(k: Keys, r: RideId, now: int)
    requires k.online == POOL && Matching.Free(k, r, 5)
    ensures Targets(k, r, 1, Call(now)) == [DRIVER]
  {
    OnlyOneOnline(k);
    RankedAlone(DRIVER);
    assert Pool(k, 1, Call(now)) == [DRIVER];
    SkippedIff(k, r, [DRIVER], DRIVER);
    EligibleAlone(DRIVER, OfferedMap(k, r), ExcludedMap(k, r, [DRIVER]));
  }
}
