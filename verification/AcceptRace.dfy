// Any number of AcceptRide calls racing each other and every other handler, one Redis command at a time.
// No key expires here except offers: the claim's TTL of an hour is taken to outlast the race.
module AcceptRace {
  import opened Wrappers
  import opened MatchingKeys

  /** The command a call sends next, or how it ended. */
  datatype Stage =
    | GetUser | GetRide | CheckCancelled | CheckAccepted | CheckOffer | Claim
    | ReadRating | WriteMatched | DropPending | DropOffer | LeavePool | Publish
    | Won | Forbidden | NotFound | OfferGone | RideTaken | Aborted

  datatype Call = Call(ride: RideId, driver: DriverId, caller: UserId, stage: Stage, rating: real)

  datatype Accepted = Accepted(ride: RideId, driver: DriverId)

  datatype State = State(keys: Keys, calls: seq<Call>, published: seq<Accepted>)

  datatype Step =
    | Begin(ride: RideId, driver: DriverId, caller: UserId)
    /** Call `p` sends its next command; `sent` is the broker's answer when that is the publish. */
    | Advance(p: nat, sent: bool)
    /** An error return or a crash, anywhere. */
    | Abort(p: nat)
    | Other(command: Command)

  /** The commands of the other handlers, in any order and number. */
  datatype Command =
    | Saves(ride: RideId)
    | Offers(ride: RideId, driver: DriverId)
    | Records(ride: RideId, driver: DriverId)
    | Counts(driver: DriverId)
    | Expires(driver: DriverId)
    | Cancels(ride: RideId)
    | Marks(ride: RideId, status: RideStatus)
    | Arms(ride: RideId, entry: Pending)
    | Disarms(ride: RideId)
    | GoesOnline(driver: DriverId, rating: real)
    | GoesOffline(driver: DriverId)
    | Registers(driver: DriverId, user: UserId)

  function Obey(k: Keys, c: Command): Keys {
    match c
    case Saves(r) => SaveRide(k, r)
    case Offers(r, d) => SetOffer(k, r, d)
    case Records(r, d) => RecordOffer(k, r, d)
    case Counts(d) => IncrementCount(k, d)
    case Expires(d) => ClearOffer(k, d)
    case Cancels(r) => SetCancelled(k, r)
    case Marks(r, status) => SetStatus(k, r, status)
    case Arms(r, entry) => SetPending(k, r, entry)
    case Disarms(r) => DeletePending(k, r)
    case GoesOnline(d, rating) => AddOnline(k, d, rating)
    case GoesOffline(d) => RemoveOnline(k, d)
    case Registers(d, u) => k.(users := k.users[d := u])
  }

  /** What a call's next command does to the keys. */
  function Effect(k: Keys, c: Call): Keys {
    if c.stage.Claim? then SetAccepted(k, c.ride, c.driver)
    else if c.stage.WriteMatched? then MarkMatched(k, c.ride, c.driver, c.rating)
    else if c.stage.DropPending? then DeletePending(k, c.ride)
    else if c.stage.DropOffer? then ClearOffer(k, c.driver)
    else if c.stage.LeavePool? then RemoveOnline(k, c.driver)
    else k
  }

  /** And what the call makes of the answer. */
  function Then(k: Keys, c: Call): Call {
    match c.stage
    case GetUser =>
      c.(stage := if c.driver in k.users && k.users[c.driver] == c.caller then GetRide else Forbidden)
    case GetRide => c.(stage := if c.ride in k.rides then CheckCancelled else NotFound)
    case CheckCancelled => c.(stage := if c.ride in k.cancelled then OfferGone else CheckAccepted)
    case CheckAccepted => c.(stage := if c.ride in k.accepted then RideTaken else CheckOffer)
    case CheckOffer =>
      c.(stage := if c.driver in k.offers && k.offers[c.driver] == c.ride then Claim else OfferGone)
    case Claim => c.(stage := if c.ride in k.accepted then RideTaken else ReadRating)
    case ReadRating => c.(stage := WriteMatched, rating := RatingOf(k, c.driver))
    case WriteMatched => c.(stage := DropPending)
    case DropPending => c.(stage := DropOffer)
    case DropOffer => c.(stage := LeavePool)
    case LeavePool => c.(stage := Publish)
    case Publish => c.(stage := Won)
    case _ => c
  }

  function Next(s: State, step: Step): State {
    match step
    case Begin(r, d, u) => s.(calls := s.calls + [Call(r, d, u, GetUser, 0.0)])
    case Advance(p, sent) =>
      if p >= |s.calls| then s
      else
        var c := s.calls[p];
        State(Effect(s.keys, c), s.calls[p := Then(s.keys, c)],
              if c.stage.Publish? && sent then s.published + [Accepted(c.ride, c.driver)] else s.published)
    case Abort(p) => if p < |s.calls| then s.(calls := s.calls[p := s.calls[p].(stage := Aborted)]) else s
    case Other(c) => s.(keys := Obey(s.keys, c))
  }

  function Run(start: Keys, steps: seq<Step>): State {
    if steps == [] then State(start, [], [])
    else Next(Run(start, steps[..|steps| - 1]), steps[|steps| - 1])
  }

  // ---- The invariant -------------------------------------------------------------------------

  predicate InFlight(c: Call) {
    c.stage.ReadRating? || c.stage.WriteMatched? || c.stage.DropPending? || c.stage.DropOffer? ||
    c.stage.LeavePool? || c.stage.Publish?
  }

  /** Past the claim, and not stopped by an error since. */
  predicate Holds(c: Call) {
    InFlight(c) || c.stage.Won?
  }

  predicate HasWritten(c: Call) {
    Holds(c) && !c.stage.ReadRating? && !c.stage.WriteMatched?
  }

  predicate AcceptedIs(k: Keys, r: RideId, d: DriverId) {
    r in k.accepted && k.accepted[r] == d
  }

  predicate CallSound(k: Keys, c: Call) {
    && (Holds(c) ==> AcceptedIs(k, c.ride, c.driver))
    && (HasWritten(c) ==> c.ride in k.rides && k.rides[c.ride].driver == Some(c.driver))
  }

  predicate HashSound(k: Keys, r: RideId) {
    r in k.rides && k.rides[r].driver.Some? ==> AcceptedIs(k, r, k.rides[r].driver.value)
  }

  predicate SameHold(c: Call, d: Call) {
    Holds(c) && Holds(d) && c.ride == d.ride
  }

  ghost predicate OneHolder(calls: seq<Call>) {
    forall p, q :: 0 <= p < |calls| && 0 <= q < |calls| && SameHold(calls[p], calls[q]) ==> p == q
  }

  /** A published event names the claim's driver, and nobody is about to publish for that ride again. */
  ghost predicate EventSound(s: State, e: Accepted) {
    && AcceptedIs(s.keys, e.ride, e.driver)
    && forall p :: 0 <= p < |s.calls| && InFlight(s.calls[p]) ==> s.calls[p].ride != e.ride
  }

  ghost predicate EventsSound(s: State) {
    && (forall i :: 0 <= i < |s.published| ==> EventSound(s, s.published[i]))
    && forall i, j :: 0 <= i < j < |s.published| ==> s.published[i].ride != s.published[j].ride
  }

  ghost predicate Sound(s: State) {
    && (forall p :: 0 <= p < |s.calls| ==> CallSound(s.keys, s.calls[p]))
    && (forall r :: r in s.keys.rides ==> HashSound(s.keys, r))
    && OneHolder(s.calls)
    && EventsSound(s)
  }

  lemma OtherKeeps(s: State, c: Command)
    requires Sound(s)
    ensures Sound(s.(keys := Obey(s.keys, c)))
  {
    var k' := Obey(s.keys, c);
    assert k'.accepted == s.keys.accepted;
    forall r | r in k'.rides ensures HashSound(k', r) {
      assert r in s.keys.rides ==> HashSound(s.keys, r);
    }
    forall p | 0 <= p < |s.calls| ensures CallSound(k', s.calls[p]) {
      assert CallSound(s.keys, s.calls[p]);
    }
    forall i | 0 <= i < |s.published| ensures EventSound(s.(keys := k'), s.published[i]) {
      assert EventSound(s, s.published[i]);
    }
  }

  /** A call claims the ride that nobody held. */
  lemma ClaimKeeps(s: State, p: nat)
    requires Sound(s) && p < |s.calls| && s.calls[p].stage.Claim?
    ensures Sound(Next(s, Advance(p, false)))
  {
    var s' := Next(s, Advance(p, false));
    forall q | 0 <= q < |s.calls| ensures CallSound(s'.keys, s'.calls[q]) {
      assert CallSound(s.keys, s.calls[q]);
    }
    forall r | r in s'.keys.rides ensures HashSound(s'.keys, r) {
      assert HashSound(s.keys, r);
    }
    forall i | 0 <= i < |s.published| ensures EventSound(s', s.published[i]) {
      assert EventSound(s, s.published[i]);
    }
  }

  /** The ride's only holder moves on. */
  lemma HolderKeeps(s: State, p: nat, sent: bool)
    requires Sound(s) && p < |s.calls| && InFlight(s.calls[p])
    ensures Sound(Next(s, Advance(p, sent)))
  {
    var s' := Next(s, Advance(p, sent));
    var c := s.calls[p];
    assert CallSound(s.keys, c);
    assert s'.keys.accepted == s.keys.accepted;
    forall q | 0 <= q < |s.calls| ensures CallSound(s'.keys, s'.calls[q]) {
      assert CallSound(s.keys, s.calls[q]);
    }
    forall r | r in s'.keys.rides ensures HashSound(s'.keys, r) {
      assert r in s.keys.rides ==> HashSound(s.keys, r);
    }
    forall i | 0 <= i < |s.published| ensures EventSound(s', s.published[i]) && s.published[i].ride != c.ride {
      assert EventSound(s, s.published[i]);
    }
  }

  /** A call that holds nothing asks, is refused, or has ended. */
  lemma AskerKeeps(s: State, p: nat, sent: bool)
    requires Sound(s) && p < |s.calls| && !InFlight(s.calls[p]) && !s.calls[p].stage.Claim?
    ensures Sound(Next(s, Advance(p, sent)))
  {
    var s' := Next(s, Advance(p, sent));
    assert Holds(s'.calls[p]) == Holds(s.calls[p]);
    forall i | 0 <= i < |s.published| ensures EventSound(s', s.published[i]) {
      assert EventSound(s, s.published[i]);
    }
  }

  lemma {:induction false} StepKeeps(s: State, step: Step)
    requires Sound(s)
    ensures Sound(Next(s, step))
  {
    match step
    case Begin(_, _, _) =>
      forall i | 0 <= i < |s.published| ensures EventSound(Next(s, step), s.published[i]) {
        assert EventSound(s, s.published[i]);
      }
    case Advance(p, sent) =>
      if p < |s.calls| {
        if InFlight(s.calls[p]) {
          HolderKeeps(s, p, sent);
        } else if s.calls[p].stage.Claim? {
          ClaimKeeps(s, p);
        } else {
          AskerKeeps(s, p, sent);
        }
      }
    case Abort(p) =>
      forall i | 0 <= i < |s.published| ensures EventSound(Next(s, step), s.published[i]) {
        assert EventSound(s, s.published[i]);
      }
    case Other(c) => OtherKeeps(s, c);
  }

  /** A keyspace in which no ride has been claimed. */
  predicate Fresh(k: Keys) {
    k.accepted == map[] && forall r :: r in k.rides ==> k.rides[r].driver.None?
  }

  lemma {:induction false} RunSound(start: Keys, steps: seq<Step>)
    requires Fresh(start)
    ensures Sound(Run(start, steps))
  {
    if steps != [] {
      RunSound(start, steps[..|steps| - 1]);
      StepKeeps(Run(start, steps[..|steps| - 1]), steps[|steps| - 1]);
    }
  }

  // ---- Main results --------------------------------------------------------------------------

  /** At most one AcceptRide call ever wins a ride. */
  lemma SingleWinner(start: Keys, steps: seq<Step>, p: nat, q: nat)
    requires Fresh(start)
    requires var calls := Run(start, steps).calls;
      && p < |calls| && q < |calls| && calls[p].ride == calls[q].ride
      && calls[p].stage.Won? && calls[q].stage.Won?
    ensures p == q
  {
    RunSound(start, steps);
  }

  /** The winner's driver is the one in accepted_by, in the ride hash and in any published event. */
  lemma WinnerIsTheDriver(start: Keys, steps: seq<Step>, p: nat)
    requires Fresh(start) && p < |Run(start, steps).calls| && Run(start, steps).calls[p].stage.Won?
    ensures var s := Run(start, steps); var c := s.calls[p];
      && AcceptedIs(s.keys, c.ride, c.driver)
      && c.ride in s.keys.rides && s.keys.rides[c.ride].driver == Some(c.driver)
      && forall i :: 0 <= i < |s.published| && s.published[i].ride == c.ride ==> s.published[i].driver == c.driver
  {
    RunSound(start, steps);
    var s := Run(start, steps);
    assert CallSound(s.keys, s.calls[p]);
    forall i | 0 <= i < |s.published| && s.published[i].ride == s.calls[p].ride
      ensures s.published[i].driver == s.calls[p].driver
    {
      assert EventSound(s, s.published[i]);
    }
  }

  /** Whatever was lost on the way, the ride hash and the events agree with the claim, one event a ride. */
  lemma EverythingAgrees(start: Keys, steps: seq<Step>, r: RideId)
    requires Fresh(start)
    ensures var s := Run(start, steps);
      && (r in s.keys.rides && s.keys.rides[r].driver.Some? ==> AcceptedIs(s.keys, r, s.keys.rides[r].driver.value))
      && (forall i :: 0 <= i < |s.published| && s.published[i].ride == r ==> AcceptedIs(s.keys, r, s.published[i].driver))
      && (forall i, j :: 0 <= i < j < |s.published| ==> s.published[i].ride != s.published[j].ride)
  {
    RunSound(start, steps);
    var s := Run(start, steps);
    assert r in s.keys.rides ==> HashSound(s.keys, r);
    forall i | 0 <= i < |s.published| && s.published[i].ride == r ensures AcceptedIs(s.keys, r, s.published[i].driver) {
      assert EventSound(s, s.published[i]);
    }
  }

  lemma EffectOnOffers(k: Keys, c: Call)
    ensures Effect(k, c).offers == if c.stage.DropOffer? then k.offers - {c.driver} else k.offers
  {
    if c.stage.Claim? {
      assert SetAccepted(k, c.ride, c.driver).offers == k.offers;
    } else if c.stage.WriteMatched? {
      assert MarkMatched(k, c.ride, c.driver, c.rating).offers == k.offers;
    } else if c.stage.DropPending? {
      assert DeletePending(k, c.ride).offers == k.offers;
    } else if c.stage.DropOffer? {
      assert ClearOffer(k, c.driver).offers == k.offers - {c.driver};
    } else if c.stage.LeavePool? {
      assert RemoveOnline(k, c.driver).offers == k.offers;
    }
  }

  lemma ObeyKeepsOffer(k: Keys, c: Command, d: DriverId)
    requires d in k.offers && d in Obey(k, c).offers
    ensures Obey(k, c).offers[d] == k.offers[d]
  {
  }

  /** A live offer is never replaced by another: it has to expire or be cleared first. */
  lemma {:induction false} OfferNeverReplaced(s: State, step: Step, d: DriverId)
    requires d in s.keys.offers && d in Next(s, step).keys.offers
    ensures Next(s, step).keys.offers[d] == s.keys.offers[d]
  {
    match step
    case Advance(p, _) =>
      if p < |s.calls| {
        EffectOnOffers(s.keys, s.calls[p]);
      }
    case Other(c) => ObeyKeepsOffer(s.keys, c, d);
    case _ =>
  }
}
