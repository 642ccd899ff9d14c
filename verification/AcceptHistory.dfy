// What a winning call has been through: each of the five checks held at some moment of the run, for the
// caller, the driver and the ride that won.
module AcceptHistory {
  import opened Wrappers
  import opened Sequences
  import opened MatchingKeys
  import opened AcceptRace
  import Matching

  /** The checks of a call, in their order. */
  datatype Check = RightUser | RideKnown | NotCancelled | NotTaken | OfferHeld

  predicate Passes(k: Keys, c: Call, check: Check) {
    match check
    case RightUser => c.driver in k.users && k.users[c.driver] == c.caller
    case RideKnown => c.ride in k.rides
    case NotCancelled => c.ride !in k.cancelled
    case NotTaken => c.ride !in k.accepted
    case OfferHeld => c.driver in k.offers && k.offers[c.driver] == c.ride
  }

  /** The checks that a call at this stage must have behind it. */
  predicate Behind(stage: Stage, check: Check) {
    match stage
    case GetUser => false
    case GetRide => check.RightUser?
    case CheckCancelled => check.RightUser? || check.RideKnown?
    case CheckAccepted => check.RightUser? || check.RideKnown? || check.NotCancelled?
    case CheckOffer => !check.OfferHeld?
    case Forbidden => false
    case NotFound => check.RightUser?
    case OfferGone => check.RightUser? || check.RideKnown?
    case RideTaken => check.RightUser? || check.RideKnown? || check.NotCancelled?
    case Aborted => false
    case _ => true
  }

  /** The check held after some part of the run. */
  ghost predicate PassedOnce(start: Keys, steps: seq<Step>, c: Call, check: Check) {
    exists n: nat :: n <= |steps| && Passes(Run(start, steps[..n]).keys, c, check)
  }

  lemma PassedBefore(start: Keys, steps: seq<Step>, c: Call, c': Call, check: Check)
    requires steps != [] && PassedOnce(start, steps[..|steps| - 1], c, check)
    requires c'.ride == c.ride && c'.driver == c.driver && c'.caller == c.caller
    ensures PassedOnce(start, steps, c', check)
  {
    var init := steps[..|steps| - 1];
    var n: nat :| n <= |init| && Passes(Run(start, init[..n]).keys, c, check);
    assert init[..n] == steps[..n];
  }

  lemma PassesNow(start: Keys, steps: seq<Step>, c: Call, check: Check)
    requires steps != [] && Passes(Run(start, steps[..|steps| - 1]).keys, c, check)
    ensures PassedOnce(start, steps, c, check)
  {
  }

  /** A step of a call adds at most the check that it makes at that moment. */
  lemma ThenChecks(k: Keys, c: Call, check: Check)
    ensures var c' := Then(k, c);
      && c'.ride == c.ride && c'.driver == c.driver && c'.caller == c.caller
      && (Behind(c'.stage, check) ==> Behind(c.stage, check) || Passes(k, c, check))
  {
  }

  lemma {:induction false} ChecksArePassed(start: Keys, steps: seq<Step>, p: nat, check: Check)
    requires p < |Run(start, steps).calls| && Behind(Run(start, steps).calls[p].stage, check)
    ensures PassedOnce(start, steps, Run(start, steps).calls[p], check)
  {
    var n := |steps| - 1;
    var before, c := Run(start, steps[..n]), Run(start, steps).calls[p];
    assert p < |before.calls|;
    var was := before.calls[p];
    var step := steps[n];
    if step.Advance? && step.p == p {
      ThenChecks(before.keys, was, check);
      assert c == Then(before.keys, was);
      if Behind(was.stage, check) {
        ChecksArePassed(start, steps[..n], p, check);
        PassedBefore(start, steps, was, c, check);
      } else {
        PassesNow(start, steps, c, check);
      }
    } else {
      assert c == was;
      ChecksArePassed(start, steps[..n], p, check);
      PassedBefore(start, steps, was, c, check);
    }
  }

  /**
   * Whoever wins a ride was the driver's own user, and the driver held the ride's offer, at the moments when
   * his call looked; and at those moments the ride was known, not cancelled and not taken.
   */
  lemma {:induction false} WinnerPassedChecks(start: Keys, steps: seq<Step>, p: nat, check: Check)
    requires p < |Run(start, steps).calls| && Run(start, steps).calls[p].stage.Won?
    ensures PassedOnce(start, steps, Run(start, steps).calls[p], check)
  {
    ChecksArePassed(start, steps, p, check);
  }

  /** A call that is turned away has changed nothing: its commands up to there only read. */
  lemma RefusalsOnlyRead(k: Keys, c: Call)
    requires c.stage in {GetUser, GetRide, CheckCancelled, CheckAccepted, CheckOffer, Forbidden, NotFound, OfferGone, RideTaken}
    ensures Effect(k, c) == k
  {
  }

  /** And each refusal has its reason at the moment it is given. */
  lemma RefusalsHaveReasons(k: Keys, c: Call)
    ensures var c' := Then(k, c);
      && (c'.stage.Forbidden? && !c.stage.Forbidden? <==> c.stage.GetUser? && !Passes(k, c, RightUser))
      && (c'.stage.NotFound? && !c.stage.NotFound? <==> c.stage.GetRide? && !Passes(k, c, RideKnown))
      && (c'.stage.OfferGone? && !c.stage.OfferGone? <==>
            (c.stage.CheckCancelled? && !Passes(k, c, NotCancelled)) || (c.stage.CheckOffer? && !Passes(k, c, OfferHeld)))
      && (c'.stage.RideTaken? && !c.stage.RideTaken? <==>
            (c.stage.CheckAccepted? || c.stage.Claim?) && !Passes(k, c, NotTaken))
  {
  }

  // ---- What a winner leaves behind --------------------------------------------------------------

  predicate PublishesAll(steps: seq<Step>) {
    forall i :: 0 <= i < |steps| && steps[i].Advance? ==> steps[i].sent
  }

  /** While the broker takes every event, whoever has won is announced. */
  lemma {:induction false} WinnerIsAnnounced(start: Keys, steps: seq<Step>, p: nat)
    requires PublishesAll(steps) && p < |Run(start, steps).calls| && Run(start, steps).calls[p].stage.Won?
    ensures var s := Run(start, steps); Accepted(s.calls[p].ride, s.calls[p].driver) in s.published
  {
    var n := |steps| - 1;
    var before := Run(start, steps[..n]);
    var was := before.calls[p];
    if was.stage.Won? {
      WinnerIsAnnounced(start, steps[..n], p);
    } else {
      assert steps[n].Advance? && steps[n].p == p && was.stage.Publish?;
    }
  }

  /** What the commands of a winner write, in the order in which a call sends them: the claim and the ride's hash, */
  lemma WinnersClaim(k: Keys, c: Call)
    ensures c.stage.Claim? && c.ride !in k.accepted ==> Effect(k, c) == k.(accepted := k.accepted[c.ride := c.driver])
    ensures c.stage.ReadRating? && c.driver in k.online ==> Then(k, c).rating == k.online[c.driver]
  {
  }

  lemma WinnersHash(k: Keys, c: Call)
    requires c.stage.WriteMatched?
    ensures Effect(k, c) == k.(rides := k.rides[c.ride := RideHash(RideStatus.Matched, Some(c.driver), c.rating)])
  {
  }

  /** then the retry, the offer and the place in the pool, which go. */
  lemma WinnersCleanUp(k: Keys, c: Call)
    ensures c.stage.DropPending? ==> Effect(k, c) == k.(pending := k.pending - {c.ride})
    ensures c.stage.DropOffer? ==> Effect(k, c) == k.(offers := k.offers - {c.driver})
    ensures c.stage.LeavePool? ==> Effect(k, c) == k.(online := k.online - {c.driver})
  {
  }

  /** The stages of a call that nothing turns away, from its claim to its end. */
  function Path(): seq<Stage> {
    [Claim, ReadRating, WriteMatched, DropPending, DropOffer, LeavePool, Publish, Won]
  }

  /** None of them is left out. */
  lemma WinnersPath(k: Keys, c: Call, i: nat)
    requires i < 7 && c.stage == Path()[i] && (i == 0 ==> c.ride !in k.accepted)
    ensures Then(k, c).stage == Path()[i + 1]
    ensures Then(k, c) == c.(stage := Path()[i + 1], rating := Then(k, c).rating)
    ensures i != 1 ==> Then(k, c).rating == c.rating
  {
  }

  // ---- Undisturbed calls ------------------------------------------------------------------------

  /** A call's next command, with nothing in between. */
  function OneCommand(): ((Keys, Call)) -> (Keys, Call) {
    (s: (Keys, Call)) => (Effect(s.0, s.1), Then(s.0, s.1))
  }

  /** A call and the keys after `n` of its commands. */
  function Alone(k: Keys, c: Call, n: nat): (Keys, Call) {
    Repeated(OneCommand(), (k, c), n)
  }

  /** What the reply of the whole handler is called in the race. */
  function StageOf(reply: Matching.Reply): Stage {
    match reply
    case Won => Stage.Won
    case Forbidden => Stage.Forbidden
    case NotFound => Stage.NotFound
    case OfferGone => Stage.OfferGone
    case RideTaken => Stage.RideTaken
  }

  function NewCall(r: RideId, d: DriverId, u: UserId): Call {
    Call(r, d, u, GetUser, 0.0)
  }

  /** The first five commands are the checks; they end in the handler's refusal or at the claim. */
  lemma ChecksAlone(k: Keys, r: RideId, d: DriverId, u: UserId)
    ensures var reply := Matching.AcceptReply(k, r, d, u);
      Alone(k, NewCall(r, d, u), 5) == (k, NewCall(r, d, u).(stage := if reply.Won? then Claim else StageOf(reply)))
  {
    var c := NewCall(r, d, u);
    assert Alone(k, c, 1) == (k, Then(k, c));
    assert Alone(k, c, 2) == (k, Then(k, Then(k, c)));
    assert Alone(k, c, 3) == (k, Then(k, Then(k, Then(k, c))));
    assert Alone(k, c, 4) == (k, Then(k, Then(k, Then(k, Then(k, c)))));
  }

  lemma OverStaysOver(k: Keys, c: Call, n: nat)
    requires c.stage in {Stage.Forbidden, Stage.NotFound, Stage.OfferGone, Stage.RideTaken, Stage.Won}
    ensures Alone(k, c, n) == (k, c)
  {
    FixedStays(OneCommand(), (k, c), n);
  }

  /** The seven commands from the claim on are what winning writes. */
  lemma ClaimAlone(k: Keys, r: RideId, d: DriverId, u: UserId)
    requires Matching.AcceptReply(k, r, d, u).Won?
    ensures Alone(k, NewCall(r, d, u).(stage := Claim), 7).0 == Matching.Accept(k, r, d, u)
    ensures Alone(k, NewCall(r, d, u).(stage := Claim), 7).1.stage.Won?
  {
    var c := NewCall(r, d, u).(stage := Claim);
    var k1 := SetAccepted(k, r, d);
    var c1 := c.(stage := ReadRating);
    assert Alone(k, c, 1) == (k1, c1);
    var c2 := c1.(stage := WriteMatched, rating := RatingOf(k1, d));
    assert Alone(k, c, 2) == (k1, c2);
    var k3 := MarkMatched(k1, r, d, c2.rating);
    assert Alone(k, c, 3) == (k3, c2.(stage := DropPending));
    var k4 := DeletePending(k3, r);
    assert Alone(k, c, 4) == (k4, c2.(stage := DropOffer));
    var k5 := ClearOffer(k4, d);
    assert Alone(k, c, 5) == (k5, c2.(stage := LeavePool));
    assert Alone(k, c, 6) == (RemoveOnline(k5, d), c2.(stage := Publish));
    assert Alone(k, c, 7) == (RemoveOnline(k5, d), c2.(stage := Stage.Won));
  }

  /** A call that nothing interferes with is the handler that the service runs. */
  lemma {:induction false} AloneIsTheHandler(k: Keys, r: RideId, d: DriverId, u: UserId)
    ensures Alone(k, NewCall(r, d, u), 12).0 == Matching.Accept(k, r, d, u)
    ensures Alone(k, NewCall(r, d, u), 12).1.stage == StageOf(Matching.AcceptReply(k, r, d, u))
  {
    ChecksAlone(k, r, d, u);
    RepeatedSplits(OneCommand(), (k, NewCall(r, d, u)), 5, 7);
    if Matching.AcceptReply(k, r, d, u).Won? {
      ClaimAlone(k, r, d, u);
    } else {
      OverStaysOver(k, NewCall(r, d, u).(stage := StageOf(Matching.AcceptReply(k, r, d, u))), 7);
    }
  }
}
