// Runs of the matching service in which every handler runs to its end before the next one starts.
module MatchingRuns {
  import opened MatchingKeys
  import opened Matching
  import Ranking

  /** The keys, and the rides whose ride.requested the consumer has saved but not finished with. */
  datatype World = World(keys: Keys, owed: set<RideId>)

  datatype Step =
    | Request(ride: RideId)
    /** A broadcast may pick any free drivers, as the handler's own choice is. */
    | FirstBroadcast(ride: RideId, round: Round, targets: seq<Ranking.Candidate>)
    | RetryPending(ride: RideId, round: Round, targets: seq<Ranking.Candidate>)
    | AcceptBy(ride: RideId, driver: DriverId, caller: UserId)
    | CancelRide(ride: RideId)
    | ExpireOffer(driver: DriverId)
    | ExpireCount(driver: DriverId)

  predicate Enabled(w: World, s: Step) {
    match s
    case FirstBroadcast(r, _, targets) => r in w.owed && FreeTargets(w.keys, r, targets)
    case RetryPending(r, _, targets) => r in w.keys.pending && FreeTargets(w.keys, r, targets)
    case _ => true
  }

  /** A broadcast that fails leaves the event uncommitted, so that it is still owed. */
  function Next(w: World, s: Step): World {
    if !Enabled(w, s) then w
    else
    match s
    case Request(r) => World(SaveRide(w.keys, r), w.owed + {r})
    case FirstBroadcast(r, round, targets) =>
      World(BroadcastTo(w.keys, r, 1, round, targets),
            if Succeeds(w.keys, r, 1, round, targets) then w.owed - {r} else w.owed)
    case RetryPending(r, round, targets) => w.(keys := RetryTo(w.keys, r, w.keys.pending[r], round, targets))
    case AcceptBy(r, d, u) => w.(keys := Accept(w.keys, r, d, u))
    case CancelRide(r) => w.(keys := Cancel(w.keys, r))
    case ExpireOffer(d) => w.(keys := ClearOffer(w.keys, d))
    case ExpireCount(d) => w.(keys := w.keys.(counts := w.keys.counts - {d}))
  }

  function Run(w: World, steps: seq<Step>): World {
    if steps == [] then w else Next(Run(w, steps[..|steps| - 1]), steps[|steps| - 1])
  }

  // ---- Driver conservation -------------------------------------------------------------------

  /** A ride that was accepted and not cancelled: its driver is away. */
  predicate Live(k: Keys, r: RideId) {
    r in k.accepted && r !in k.cancelled
  }

  predicate HoldsRide(k: Keys, d: DriverId, r: RideId) {
    Live(k, r) && k.accepted[r] == d
  }

  ghost predicate Away(k: Keys, d: DriverId) {
    exists r :: HoldsRide(k, d, r)
  }

  predicate OnlineSound(k: Keys, initial: map<DriverId, real>, d: DriverId) {
    (d in k.online ==> d in initial && k.online[d] == initial[d]) && (d in k.offers ==> d in k.online)
  }

  /** The driver of an accepted ride comes from the pool and his rating is kept on the ride. */
  predicate RatingKept(k: Keys, initial: map<DriverId, real>, r: RideId) {
    r in k.accepted ==>
      r in k.rides && k.accepted[r] in initial && k.rides[r].rating == initial[k.accepted[r]]
  }

  ghost predicate Disjoint(k: Keys) {
    && (forall r :: Live(k, r) ==> k.accepted[r] !in k.online)
    && (forall d, q, r :: HoldsRide(k, d, q) && HoldsRide(k, d, r) ==> q == r)
  }

  ghost predicate Complete(k: Keys, initial: map<DriverId, real>) {
    forall d :: d in initial ==> d in k.online || Away(k, d)
  }

  /** The online pool and the drivers with a live ride are the initial pool, as a disjoint union. */
  ghost predicate Conserved(k: Keys, initial: map<DriverId, real>) {
    && (forall d :: OnlineSound(k, initial, d))
    && (forall r :: RatingKept(k, initial, r))
    && Disjoint(k)
    && Complete(k, initial)
  }

  lemma FrameConserves(k: Keys, k': Keys, r: RideId, initial: map<DriverId, real>)
    requires Conserved(k, initial) && Frame(k, k', r)
    ensures Conserved(k', initial)
  {
    forall d ensures OnlineSound(k', initial, d) {
      assert OnlineSound(k, initial, d);
    }
    forall q ensures RatingKept(k', initial, q) {
      assert RatingKept(k, initial, q);
    }
    SameHolders(k, k');
    forall d | d in initial && d !in k'.online ensures Away(k', d) {
      assert Away(k, d);
    }
  }

  lemma SameHolders(k: Keys, k': Keys)
    requires k'.accepted == k.accepted && k'.cancelled == k.cancelled
    ensures forall d, r :: HoldsRide(k', d, r) == HoldsRide(k, d, r)
    ensures forall r :: Live(k', r) == Live(k, r)
    ensures forall d :: Away(k', d) == Away(k, d)
  {
    forall d ensures Away(k', d) == Away(k, d) {
      if Away(k, d) {
        var r :| HoldsRide(k, d, r);
        assert HoldsRide(k', d, r);
      }
      if Away(k', d) {
        var r :| HoldsRide(k', d, r);
        assert HoldsRide(k, d, r);
      }
    }
  }

  /** A winner is online, so nobody else's driver; he leaves the pool with his rating on the ride. */
  lemma AcceptConserves(k: Keys, r: RideId, d: DriverId, u: UserId, initial: map<DriverId, real>)
    requires Conserved(k, initial)
    ensures Conserved(Accept(k, r, d, u), initial)
  {
    if AcceptReply(k, r, d, u).Won? {
      var k' := Accept(k, r, d, u);
      assert OnlineSound(k, initial, d);
      assert k'.accepted == k.accepted[r := d] && k'.online == k.online - {d} && k'.cancelled == k.cancelled;
      forall e ensures OnlineSound(k', initial, e) {
        assert OnlineSound(k, initial, e);
      }
      forall q ensures RatingKept(k', initial, q) {
        assert RatingKept(k, initial, q);
      }
      forall e, q ensures HoldsRide(k', e, q) == (HoldsRide(k, e, q) || (e == d && q == r)) {
      }
      forall e | e in initial && e !in k'.online ensures Away(k', e) {
        if e == d {
          assert HoldsRide(k', d, r);
        } else {
          assert Away(k, e);
          var q :| HoldsRide(k, e, q);
          assert HoldsRide(k', e, q);
        }
      }
    }
  }

  /** What a cancellation does to the pool. */
  lemma CancelEffect(k: Keys, r: RideId, initial: map<DriverId, real>)
    requires Conserved(k, initial)
    ensures Cancel(k, r).accepted == k.accepted && Cancel(k, r).offers == k.offers
    ensures Cancel(k, r).cancelled == k.cancelled + {r}
    ensures r !in k.accepted ==> Cancel(k, r).online == k.online
    ensures r in k.accepted ==>
              k.accepted[r] in initial && Cancel(k, r).online == k.online[k.accepted[r] := initial[k.accepted[r]]]
  {
    assert RatingKept(k, initial, r);
  }

  lemma CancelKeepsRatings(k: Keys, r: RideId, initial: map<DriverId, real>)
    requires Conserved(k, initial)
    ensures forall q :: RatingKept(Cancel(k, r), initial, q)
  {
    CancelEffect(k, r, initial);
    forall q ensures RatingKept(Cancel(k, r), initial, q) {
      assert RatingKept(k, initial, q);
    }
  }

  /** The first cancellation of a ride gives its driver back. */
  lemma CancelConserves(k: Keys, r: RideId, initial: map<DriverId, real>)
    requires Conserved(k, initial) && r !in k.cancelled
    ensures Conserved(Cancel(k, r), initial)
  {
    var k' := Cancel(k, r);
    CancelEffect(k, r, initial);
    CancelKeepsRatings(k, r, initial);
    forall d ensures OnlineSound(k', initial, d) {
      assert OnlineSound(k, initial, d);
    }
    forall d, q ensures HoldsRide(k', d, q) == (HoldsRide(k, d, q) && q != r) {
    }
    forall q | Live(k', q) ensures k'.accepted[q] !in k'.online {
      assert HoldsRide(k, k.accepted[q], q);
      assert r in k.accepted ==> HoldsRide(k, k.accepted[r], r);
    }
    forall d | d in initial && d !in k'.online ensures Away(k', d) {
      assert Away(k, d);
      var q :| HoldsRide(k, d, q);
      assert HoldsRide(k', d, q);
    }
  }

  lemma RepeatedCancelHarmless(k: Keys, r: RideId, initial: map<DriverId, real>)
    requires Conserved(k, initial) && r in k.cancelled && (r in k.accepted ==> !Away(k, k.accepted[r]))
    ensures Conserved(Cancel(k, r), initial)
  {
    CancelEffect(k, r, initial);
    CancelKeepsRatings(k, r, initial);
    assert k.cancelled + {r} == k.cancelled;
    SameHolders(k, Cancel(k, r));
    assert RatingKept(k, initial, r);
    assert r in k.accepted ==> k.accepted[r] in k.online && OnlineSound(k, initial, k.accepted[r]);
    assert Cancel(k, r).online == k.online;
    forall d ensures OnlineSound(Cancel(k, r), initial, d) {
      assert OnlineSound(k, initial, d);
    }
  }

  /**
   * A repeated cancellation keeps the pool right exactly when the ride's driver is not out on another
   * ride by now: otherwise it puts him back online while he drives.
   */
  lemma RepeatedCancelConservesIff(k: Keys, r: RideId, initial: map<DriverId, real>)
    requires Conserved(k, initial) && r in k.cancelled
    ensures Conserved(Cancel(k, r), initial) <==> !(r in k.accepted && Away(k, k.accepted[r]))
  {
    if r in k.accepted && Away(k, k.accepted[r]) {
      CancelEffect(k, r, initial);
      assert k.cancelled + {r} == k.cancelled;
      var q :| HoldsRide(k, k.accepted[r], q);
      assert Live(Cancel(k, r), q);
    } else {
      RepeatedCancelHarmless(k, r, initial);
    }
  }

  lemma ExpiryConserves(k: Keys, k': Keys, initial: map<DriverId, real>)
    requires Conserved(k, initial)
    requires k' == k.(offers := k'.offers, counts := k'.counts) && k'.offers.Keys <= k.offers.Keys
    ensures Conserved(k', initial)
  {
    SameHolders(k, k');
    forall d ensures OnlineSound(k', initial, d) {
      assert OnlineSound(k, initial, d);
    }
    forall q ensures RatingKept(k', initial, q) {
      assert RatingKept(k, initial, q);
    }
    forall d | d in initial && d !in k'.online ensures Away(k', d) {
      assert Away(k, d);
    }
  }

  lemma SaveConserves(k: Keys, r: RideId, initial: map<DriverId, real>)
    requires Conserved(k, initial)
    ensures Conserved(SaveRide(k, r), initial)
  {
    var k' := SaveRide(k, r);
    SameHolders(k, k');
    forall d ensures OnlineSound(k', initial, d) {
      assert OnlineSound(k, initial, d);
    }
    forall q ensures RatingKept(k', initial, q) {
      assert RatingKept(k, initial, q);
    }
    forall d | d in initial && d !in k'.online ensures Away(k', d) {
      assert Away(k, d);
    }
  }

  lemma RetryFrame(k: Keys, r: RideId, p: Pending, round: Round, targets: seq<Ranking.Candidate>)
    requires FreeTargets(k, r, targets)
    ensures Frame(k, RetryTo(k, r, p, round, targets), r)
  {
    if r in k.accepted {
      DeleteFrame(k, k, r);
    } else if round.now >= p.deadline {
      BroadcastFrame(k, r, p.attempt + 1, round, targets);
    }
  }

  lemma StepConserves(w: World, s: Step, initial: map<DriverId, real>)
    requires Conserved(w.keys, initial) && !(s.CancelRide? && s.ride in w.keys.cancelled)
    ensures Conserved(Next(w, s).keys, initial)
  {
    match s
    case Request(r) => SaveConserves(w.keys, r, initial);
    case FirstBroadcast(r, round, targets) =>
      if Enabled(w, s) {
        BroadcastFrame(w.keys, r, 1, round, targets);
        FrameConserves(w.keys, Next(w, s).keys, r, initial);
      }
    case RetryPending(r, round, targets) =>
      if Enabled(w, s) {
        RetryFrame(w.keys, r, w.keys.pending[r], round, targets);
        FrameConserves(w.keys, Next(w, s).keys, r, initial);
      }
    case AcceptBy(r, d, u) => AcceptConserves(w.keys, r, d, u, initial);
    case CancelRide(r) => CancelConserves(w.keys, r, initial);
    case ExpireOffer(d) => ExpiryConserves(w.keys, Next(w, s).keys, initial);
    case ExpireCount(d) => ExpiryConserves(w.keys, Next(w, s).keys, initial);
  }

  predicate Opening(k: Keys) {
    k.accepted == map[] && k.offers == map[] && k.cancelled == {} && k.pending == map[] && k.rides == map[]
  }

  predicate CancelsOnce(steps: seq<Step>) {
    forall i, j :: 0 <= i < j < |steps| && steps[i].CancelRide? ==> steps[j] != steps[i]
  }

  predicate CancelledIn(steps: seq<Step>, r: RideId) {
    CancelRide(r) in steps
  }

  lemma {:induction false} OnlyCancelsCancel(w: World, steps: seq<Step>, r: RideId)
    requires Opening(w.keys) && r in Run(w, steps).keys.cancelled
    ensures CancelledIn(steps, r)
  {
    if steps != [] {
      var last := |steps| - 1;
      var before := Run(w, steps[..last]);
      if r in before.keys.cancelled {
        OnlyCancelsCancel(w, steps[..last], r);
        assert steps == steps[..last] + [steps[last]];
      } else {
        CancelledBy(before, steps[last], r);
      }
    }
  }

  lemma AcceptCancelsNothing(k: Keys, r: RideId, d: DriverId, u: UserId)
    ensures Accept(k, r, d, u).cancelled == k.cancelled
  {
  }

  lemma BroadcastCancelsNothing(w: World, s: Step)
    requires s.FirstBroadcast? || s.RetryPending?
    ensures Next(w, s).keys.cancelled == w.keys.cancelled
  {
    if Enabled(w, s) {
      if s.FirstBroadcast? {
        BroadcastFrame(w.keys, s.ride, 1, s.round, s.targets);
      } else {
        RetryFrame(w.keys, s.ride, w.keys.pending[s.ride], s.round, s.targets);
      }
    }
  }

  lemma OthersCancelNothing(w: World, s: Step)
    requires !s.CancelRide?
    ensures Next(w, s).keys.cancelled == w.keys.cancelled
  {
    if s.FirstBroadcast? || s.RetryPending? {
      BroadcastCancelsNothing(w, s);
    } else if s.AcceptBy? {
      AcceptCancelsNothing(w.keys, s.ride, s.driver, s.caller);
    }
  }

  lemma CancelCancelsOne(k: Keys, r: RideId)
    ensures Cancel(k, r).cancelled == k.cancelled + {r}
  {
  }

  lemma CancelledBy(w: World, s: Step, r: RideId)
    requires r in Next(w, s).keys.cancelled && r !in w.keys.cancelled
    ensures s == CancelRide(r)
  {
    if s.CancelRide? {
      CancelCancelsOne(w.keys, s.ride);
    } else {
      OthersCancelNothing(w, s);
    }
  }

  /**
   * With each cancellation delivered once, the drivers online and the drivers with a live ride are at
   * every moment exactly the initial pool, nobody is both, nobody has two rides, and ratings survive.
   */
  lemma {:induction false} DriversAreConserved(w: World, steps: seq<Step>)
    requires Opening(w.keys) && CancelsOnce(steps)
    ensures Conserved(Run(w, steps).keys, w.keys.online)
  {
    if steps == [] {
      forall d ensures OnlineSound(w.keys, w.keys.online, d) {
      }
    } else {
      var last := |steps| - 1;
      var before := Run(w, steps[..last]);
      DriversAreConserved(w, steps[..last]);
      if steps[last].CancelRide? && steps[last].ride in before.keys.cancelled {
        OnlyCancelsCancel(w, steps[..last], steps[last].ride);
        assert false;
      }
      StepConserves(before, steps[last], w.keys.online);
    }
  }

  // ---- No silent stall -----------------------------------------------------------------------

  /** A ride that still needs a driver. */
  predicate Waiting(k: Keys, r: RideId) {
    r in k.rides && k.rides[r].status.Searching? && r !in k.accepted && r !in k.cancelled
  }

  predicate StatusSound(k: Keys, r: RideId) {
    r in k.rides ==>
      && (k.rides[r].status.Matched? ==> r in k.accepted)
      && (k.rides[r].status.Cancelled? ==> r in k.cancelled)
  }

  predicate AttemptSound(k: Keys, r: RideId) {
    r in k.pending ==> 1 <= k.pending[r].attempt <= MAX_ATTEMPTS
  }

  predicate NotStalled(w: World, r: RideId) {
    Waiting(w.keys, r) ==> r in w.keys.pending || r in w.owed
  }

  ghost predicate Alive(w: World) {
    forall r :: NotStalled(w, r) && StatusSound(w.keys, r) && AttemptSound(w.keys, r)
  }

  lemma BroadcastRides(k: Keys, r: RideId, attempt: int, round: Round, targets: seq<Ranking.Candidate>)
    requires r in k.rides
    ensures BroadcastTo(k, r, attempt, round, targets).rides ==
      if k.rides[r].status.Searching? && attempt > MAX_ATTEMPTS && !round.fault.Early? then SetStatus(k, r, Failed).rides
      else k.rides
  {
    if round.fault.Early? {
    } else if !k.rides[r].status.Searching? {
    } else if attempt > MAX_ATTEMPTS {
    } else {
      OffersOnly(k, r, targets, round.cut);
    }
  }

  /** A broadcast fails a ride that was searching when its attempts are used up, and changes no other status. */
  lemma BroadcastStatus(k: Keys, r: RideId, attempt: int, round: Round, targets: seq<Ranking.Candidate>)
    requires r in k.rides
    ensures r in BroadcastTo(k, r, attempt, round, targets).rides
    ensures BroadcastTo(k, r, attempt, round, targets).rides[r].status ==
      if k.rides[r].status.Searching? && attempt > MAX_ATTEMPTS && !round.fault.Early? then Failed
      else k.rides[r].status
  {
    BroadcastRides(k, r, attempt, round, targets);
  }

  lemma BroadcastAlive(k: Keys, r: RideId, attempt: int, round: Round, targets: seq<Ranking.Candidate>, owed: set<RideId>)
    requires FreeTargets(k, r, targets)
    requires 1 <= attempt && Alive(World(k, owed))
    ensures forall q :: StatusSound(BroadcastTo(k, r, attempt, round, targets), q) && AttemptSound(BroadcastTo(k, r, attempt, round, targets), q)
    ensures forall q :: q != r ==> NotStalled(World(BroadcastTo(k, r, attempt, round, targets), owed), q)
    ensures round.fault.NoFault? || r in k.pending || r in owed ==>
              (round.fault.NoFault? ==> NotStalled(World(BroadcastTo(k, r, attempt, round, targets), owed - {r}), r)) &&
              NotStalled(World(BroadcastTo(k, r, attempt, round, targets), owed), r)
  {
    BroadcastFrame(k, r, attempt, round, targets);
    BroadcastArms(k, r, attempt, round, targets);
    if r in k.rides {
      BroadcastStatus(k, r, attempt, round, targets);
    }
    forall q
      ensures StatusSound(BroadcastTo(k, r, attempt, round, targets), q) && AttemptSound(BroadcastTo(k, r, attempt, round, targets), q)
    {
      assert StatusSound(k, q) && AttemptSound(k, q);
    }
    forall q | q != r ensures NotStalled(World(BroadcastTo(k, r, attempt, round, targets), owed), q) {
      assert NotStalled(World(k, owed), q);
    }
  }

  lemma AcceptAlive(w: World, r: RideId, d: DriverId, u: UserId)
    requires Alive(w)
    ensures Alive(Next(w, AcceptBy(r, d, u)))
  {
    var w' := Next(w, AcceptBy(r, d, u));
    forall q ensures NotStalled(w', q) && StatusSound(w'.keys, q) && AttemptSound(w'.keys, q) {
      assert NotStalled(w, q) && StatusSound(w.keys, q) && AttemptSound(w.keys, q);
    }
  }

  lemma CancelAliveFor(w: World, r: RideId, q: RideId)
    requires NotStalled(w, q) && StatusSound(w.keys, q) && AttemptSound(w.keys, q)
    ensures var w' := Next(w, CancelRide(r)); NotStalled(w', q) && StatusSound(w'.keys, q) && AttemptSound(w'.keys, q)
  {
  }

  lemma CancelAlive(w: World, r: RideId)
    requires Alive(w)
    ensures Alive(Next(w, CancelRide(r)))
  {
    var w' := Next(w, CancelRide(r));
    forall q ensures NotStalled(w', q) && StatusSound(w'.keys, q) && AttemptSound(w'.keys, q) {
      assert NotStalled(w, q) && StatusSound(w.keys, q) && AttemptSound(w.keys, q);
      CancelAliveFor(w, r, q);
    }
  }

  lemma QuietAlive(w: World, s: Step)
    requires Alive(w) && (s.Request? || s.ExpireOffer? || s.ExpireCount?)
    ensures Alive(Next(w, s))
  {
    var w' := Next(w, s);
    forall q ensures NotStalled(w', q) && StatusSound(w'.keys, q) && AttemptSound(w'.keys, q) {
      assert NotStalled(w, q) && StatusSound(w.keys, q) && AttemptSound(w.keys, q);
    }
  }

  lemma FirstBroadcastAlive(w: World, r: RideId, round: Round, targets: seq<Ranking.Candidate>)
    requires Alive(w) && Enabled(w, FirstBroadcast(r, round, targets))
    ensures Alive(Next(w, FirstBroadcast(r, round, targets)))
  {
    var w' := Next(w, FirstBroadcast(r, round, targets));
    BroadcastAlive(w.keys, r, 1, round, targets, w.owed);
    forall q ensures NotStalled(w', q) {
      assert NotStalled(World(w'.keys, w.owed), q);
    }
  }

  lemma RetryAlive(w: World, r: RideId, round: Round, targets: seq<Ranking.Candidate>)
    requires Alive(w) && Enabled(w, RetryPending(r, round, targets))
    ensures Alive(Next(w, RetryPending(r, round, targets)))
  {
    var w' := Next(w, RetryPending(r, round, targets));
    var p := w.keys.pending[r];
    assert AttemptSound(w.keys, r);
    if r in w.keys.accepted {
      forall q ensures NotStalled(w', q) && StatusSound(w'.keys, q) && AttemptSound(w'.keys, q) {
        assert NotStalled(w, q) && StatusSound(w.keys, q) && AttemptSound(w.keys, q);
      }
    } else if round.now >= p.deadline {
      BroadcastAlive(w.keys, r, p.attempt + 1, round, targets, w.owed);
      forall q ensures NotStalled(w', q) {
      }
    }
  }

  lemma StepAlive(w: World, s: Step)
    requires Alive(w)
    ensures Alive(Next(w, s))
  {
    if Enabled(w, s) {
      match s
      case FirstBroadcast(r, round, targets) => FirstBroadcastAlive(w, r, round, targets);
      case RetryPending(r, round, targets) => RetryAlive(w, r, round, targets);
      case AcceptBy(r, d, u) => AcceptAlive(w, r, d, u);
      case CancelRide(r) => CancelAlive(w, r);
      case _ => QuietAlive(w, s);
    }
  }

  /** Whatever fails, a ride that needs a driver is always pending or its first broadcast still owed. */
  lemma {:induction false} NoSilentStall(w: World, steps: seq<Step>)
    requires Opening(w.keys)
    ensures Alive(Run(w, steps))
  {
    if steps == [] {
      forall r ensures NotStalled(w, r) && StatusSound(w.keys, r) && AttemptSound(w.keys, r) {
      }
    } else {
      NoSilentStall(w, steps[..|steps| - 1]);
      StepAlive(Run(w, steps[..|steps| - 1]), steps[|steps| - 1]);
    }
  }

  // ---- Retries end ---------------------------------------------------------------------------

  /** Nothing is left to do for the ride: unknown, claimed, cancelled or failed. */
  predicate Settled(k: Keys, r: RideId) {
    r !in k.rides || r in k.accepted || r in k.cancelled || k.rides[r].status.Failed?
  }

  /** A retry that is due and meets no error. */
  predicate Due(w: World, s: Step, r: RideId) {
    && s.RetryPending? && s.ride == r && Enabled(w, s) && s.round.fault.NoFault?
    && (r in w.keys.accepted || s.round.now >= w.keys.pending[r].deadline)
  }

  /** A due retry either settles the ride and drops its entry, or goes on to the next attempt. */
  lemma DueRetryProgresses(w: World, s: Step, r: RideId)
    requires Alive(w) && Due(w, s, r)
    ensures var k' := Next(w, s).keys;
      if r in k'.pending then k'.pending[r].attempt == w.keys.pending[r].attempt + 1 <= MAX_ATTEMPTS
      else Settled(k', r)
  {
    var p := w.keys.pending[r];
    assert AttemptSound(w.keys, r) && StatusSound(w.keys, r);
    if r !in w.keys.accepted {
      SettledOrArmed(w.keys, r, p.attempt + 1, s.round, s.targets);
    }
  }

  lemma SettledOrArmed(k: Keys, r: RideId, attempt: int, round: Round, targets: seq<Ranking.Candidate>)
    requires FreeTargets(k, r, targets)
    requires round.fault.NoFault? && StatusSound(k, r) && attempt >= 1
    ensures var k' := BroadcastTo(k, r, attempt, round, targets);
      if r in k'.pending then k'.pending[r].attempt == attempt <= MAX_ATTEMPTS else Settled(k', r)
  {
    BroadcastFrame(k, r, attempt, round, targets);
    BroadcastArms(k, r, attempt, round, targets);
    if r in k.rides {
      BroadcastStatus(k, r, attempt, round, targets);
    }
  }

  /** How many more due retries the ride can see. */
  function Left(k: Keys, r: RideId): int {
    if r in k.pending then MAX_ATTEMPTS + 1 - k.pending[r].attempt else 0
  }

  /** Nothing but a new delivery of the request, which starts over, takes an attempt back. */
  lemma LeftNeverGrows(w: World, s: Step, r: RideId)
    requires Alive(w) && !(s.FirstBroadcast? && s.ride == r)
    ensures 0 <= Left(Next(w, s).keys, r) <= Left(w.keys, r)
    ensures Due(w, s, r) ==> Left(Next(w, s).keys, r) < Left(w.keys, r)
  {
    StepAlive(w, s);
    assert AttemptSound(w.keys, r) && AttemptSound(Next(w, s).keys, r);
    if s.FirstBroadcast? {
      if Enabled(w, s) {
        BroadcastFrame(w.keys, s.ride, 1, s.round, s.targets);
      }
    } else if s.RetryPending? {
      if Due(w, s, r) {
        DueRetryProgresses(w, s, r);
      } else {
        OtherRetry(w, s.ride, s.round, s.targets, r);
      }
    } else {
      PendingOnlyDropped(w, s);
    }
  }

  /** Handlers other than broadcasts only drop entries. */
  lemma PendingOnlyDropped(w: World, s: Step)
    requires !s.FirstBroadcast? && !s.RetryPending?
    ensures var pending := Next(w, s).keys.pending;
      pending == w.keys.pending || ((s.AcceptBy? || s.CancelRide?) && pending == w.keys.pending - {s.ride})
  {
    match s
    case AcceptBy(r, d, u) => assert Accept(w.keys, r, d, u).pending in {w.keys.pending, w.keys.pending - {r}};
    case CancelRide(r) => assert Cancel(w.keys, r).pending == w.keys.pending - {r};
    case _ =>
  }

  /** A retry of another ride, or one that is not due or fails, leaves the ride's entry alone. */
  lemma OtherRetry(w: World, q: RideId, round: Round, targets: seq<Ranking.Candidate>, r: RideId)
    requires !Due(w, RetryPending(q, round, targets), r)
    ensures Left(Next(w, RetryPending(q, round, targets)).keys, r) in {0, Left(w.keys, r)}
  {
    if Enabled(w, RetryPending(q, round, targets)) {
      RetryFrame(w.keys, q, w.keys.pending[q], round, targets);
      if q == r && r !in w.keys.accepted {
        FaultyRetry(w.keys, q, w.keys.pending[q], round, targets);
      }
    }
  }

  lemma FaultyRetry(k: Keys, r: RideId, p: Pending, round: Round, targets: seq<Ranking.Candidate>)
    requires FreeTargets(k, r, targets)
    requires r !in k.accepted && (!round.fault.NoFault? || round.now < p.deadline)
    ensures RetryTo(k, r, p, round, targets).pending == k.pending
  {
    if r !in k.accepted && round.now >= p.deadline {
      BroadcastArms(k, r, p.attempt + 1, round, targets);
    }
  }

  function DueRetries(w: World, steps: seq<Step>, r: RideId): nat {
    if steps == [] then 0
    else
      var init := steps[..|steps| - 1];
      DueRetries(w, init, r) + if Due(Run(w, init), steps[|steps| - 1], r) then 1 else 0
  }

  /**
   * After at most as many due retries as attempts are left, the ride is no longer pending, and so it is
   * claimed, cancelled, failed or unknown.
   */
  lemma {:induction false} RetriesRunOut(w: World, steps: seq<Step>, r: RideId)
    requires Alive(w) && forall i :: 0 <= i < |steps| ==> !(steps[i].FirstBroadcast? && steps[i].ride == r)
    ensures Alive(Run(w, steps)) && 0 <= Left(Run(w, steps).keys, r) <= Left(w.keys, r) - DueRetries(w, steps, r)
  {
    if steps == [] {
      assert AttemptSound(w.keys, r);
    } else {
      var init := steps[..|steps| - 1];
      RetriesRunOut(w, init, r);
      StepAlive(Run(w, init), steps[|steps| - 1]);
      LeftNeverGrows(Run(w, init), steps[|steps| - 1], r);
    }
  }

  lemma {:induction false} SettledWhenRetriesRunOut(w: World, steps: seq<Step>, r: RideId)
    requires Alive(w) && r in w.keys.pending && r !in Run(w, steps).owed
    requires forall i :: 0 <= i < |steps| ==> !(steps[i].FirstBroadcast? && steps[i].ride == r)
    requires DueRetries(w, steps, r) >= MAX_ATTEMPTS + 1 - w.keys.pending[r].attempt
    ensures Settled(Run(w, steps).keys, r)
  {
    RetriesRunOut(w, steps, r);
    var w' := Run(w, steps);
    assert NotStalled(w', r) && StatusSound(w'.keys, r) && AttemptSound(w'.keys, r);
  }
}
