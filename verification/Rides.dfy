// The ride service: a ride's life from request to completion or cancellation, and the outbox rows it leaves.
// Every handler locks the ride's row or runs one guarded update, so that each is one step.
module Rides {
  import opened Wrappers
  import Int64

  type RideId = nat
  type UserId = nat

  datatype Status = Requested | Matched | InProgress | Completed | Cancelled | Failed

  datatype Ride = Ride(
    client: UserId, driver: Option<UserId>, status: Status, price: int, currency: string, bill: Option<nat>)

  datatype Event =
    | RideRequested(ride: RideId, client: UserId, price: int, currency: string)
    | RideStarted(ride: RideId, driver: UserId)
    | RideCompleted(ride: RideId, client: UserId, driver: UserId, amount: int, currency: string)
    | RideCancelled(ride: RideId, client: UserId, optDriver: Option<UserId>, fee: int, currency: string)

  datatype Db = Db(rides: seq<Ride>, outbox: seq<Event>)

  datatype Reply = Ok | NotFound | Forbidden | Conflict | Error

  /** What the fee calculator answers; nothing when it fails. */
  datatype Fee = Fee(minor: int, currency: string)

  // ---- The handlers --------------------------------------------------------------------------

  function Create(db: Db, client: UserId, price: int, currency: string): Db {
    Db(db.rides + [Ride(client, None, Requested, price, currency, None)],
       db.outbox + [RideRequested(|db.rides|, client, price, currency)])
  }

  function WithRide(db: Db, r: RideId, ride: Ride): Db
    requires r < |db.rides|
  {
    db.(rides := db.rides[r := ride])
  }

  predicate IsRequested(db: Db, r: RideId) {
    r < |db.rides| && db.rides[r].status.Requested?
  }

  /** MarkRideMatched and FailRide touch a ride only while it is requested. */
  function MarkMatched(db: Db, r: RideId, driver: UserId): Db {
    if IsRequested(db, r) then WithRide(db, r, db.rides[r].(driver := Some(driver), status := Matched)) else db
  }

  function Fail(db: Db, r: RideId): Db {
    if IsRequested(db, r) then WithRide(db, r, db.rides[r].(status := Failed)) else db
  }

  function MarkBilled(db: Db, r: RideId, bill: nat): Db {
    if r < |db.rides| && db.rides[r].bill.None? then WithRide(db, r, db.rides[r].(bill := Some(bill))) else db
  }

  function StartReply(db: Db, r: RideId, driver: UserId): Reply {
    if r >= |db.rides| then NotFound
    else if db.rides[r].driver != Some(driver) then Forbidden
    else if !db.rides[r].status.Matched? then Conflict
    else Ok
  }

  function Start(db: Db, r: RideId, driver: UserId): Db {
    if StartReply(db, r, driver).Ok? then
      WithRide(db, r, db.rides[r].(status := InProgress)).(outbox := db.outbox + [RideStarted(r, driver)])
    else db
  }

  function CompleteReply(db: Db, r: RideId, driver: UserId): Reply {
    if r >= |db.rides| then NotFound
    else if db.rides[r].driver != Some(driver) then Forbidden
    else if !db.rides[r].status.InProgress? then Conflict
    else Ok
  }

  function Complete(db: Db, r: RideId, driver: UserId): Db {
    if CompleteReply(db, r, driver).Ok? then
      var ride := db.rides[r];
      WithRide(db, r, ride.(status := Completed)).(
        outbox := db.outbox + [RideCompleted(r, ride.client, driver, ride.price, ride.currency)])
    else db
  }

  function CancelReply(db: Db, r: RideId, client: UserId, fee: Option<Fee>): Reply {
    if r >= |db.rides| then NotFound
    else if db.rides[r].client != client then Forbidden
    else if db.rides[r].status in {InProgress, Completed, Cancelled} then Conflict
    else if db.rides[r].driver.Some? && fee.None? then Error
    else Ok
  }

  /** A ride without driver is cancelled free of charge. */
  function Cancel(db: Db, r: RideId, client: UserId, fee: Option<Fee>): Db {
    if CancelReply(db, r, client, fee).Ok? then
      var ride := db.rides[r];
      var (minor, currency) := if ride.driver.Some? then (fee.value.minor, fee.value.currency) else (0, ride.currency);
      WithRide(db, r, ride.(status := Cancelled)).(
        outbox := db.outbox + [RideCancelled(r, ride.client, ride.driver, minor, currency)])
    else db
  }

  /** The handlers as they run inside their transactions. */
  class Service {
    var work: Db
    var committed: Db

    constructor ()
      ensures work == committed == Db([], [])
    {
      work := Db([], []);
      committed := work;
    }

    method Commit()
      modifies this
      ensures work == committed == old(work)
    {
      committed := work;
    }

    method Rollback()
      modifies this
      ensures work == committed == old(committed)
    {
      work := committed;
    }

    method SetStatus(r: RideId, status: Status)
      requires r < |work.rides|
      modifies this`work
      ensures work == WithRide(old(work), r, old(work).rides[r].(status := status))
    {
      work := work.(rides := work.rides[r := work.rides[r].(status := status)]);
    }

    method Insert(e: Event)
      modifies this`work
      ensures work == old(work).(outbox := old(work).outbox + [e])
    {
      work := work.(outbox := work.outbox + [e]);
    }

    method StartRide(r: RideId, driver: UserId) returns (reply: Reply)
      requires work == committed
      modifies this
      ensures work == committed == Start(old(committed), r, driver)
      ensures reply == StartReply(old(committed), r, driver)
    {
      if r >= |work.rides| {
        return NotFound;
      }
      var ride := work.rides[r];
      if ride.driver.None? || ride.driver.value != driver {
        return Forbidden;
      }
      if ride.status != Matched {
        return Conflict;
      }
      SetStatus(r, InProgress);
      Insert(RideStarted(r, driver));
      Commit();
      return Ok;
    }

    method CompleteRide(r: RideId, driver: UserId) returns (reply: Reply)
      requires work == committed
      modifies this
      ensures work == committed == Complete(old(committed), r, driver)
      ensures reply == CompleteReply(old(committed), r, driver)
    {
      if r >= |work.rides| {
        return NotFound;
      }
      var ride := work.rides[r];
      if ride.driver.None? || ride.driver.value != driver {
        return Forbidden;
      }
      if ride.status != InProgress {
        return Conflict;
      }
      SetStatus(r, Completed);
      Insert(RideCompleted(r, ride.client, driver, ride.price, ride.currency));
      Commit();
      return Ok;
    }

    /** The status is written before the fee is known; a calculator that fails undoes it. */
    method CancelRide(r: RideId, client: UserId, fee: Option<Fee>) returns (reply: Reply)
      requires work == committed
      modifies this
      ensures work == committed == Cancel(old(committed), r, client, fee)
      ensures reply == CancelReply(old(committed), r, client, fee)
    {
      if r >= |work.rides| {
        return NotFound;
      }
      var ride := work.rides[r];
      if ride.client != client {
        return Forbidden;
      }
      if ride.status == InProgress || ride.status == Completed || ride.status == Cancelled {
        return Conflict;
      }
      SetStatus(r, Cancelled);
      var minor, currency := 0, ride.currency;
      if ride.driver.Some? {
        if fee.None? {
          Rollback();
          return Error;
        }
        minor, currency := fee.value.minor, fee.value.currency;
      }
      Insert(RideCancelled(r, ride.client, ride.driver, minor, currency));
      Commit();
      return Ok;
    }

    method MarkRideMatched(r: RideId, driver: UserId)
      requires work == committed
      modifies this
      ensures work == committed == MarkMatched(old(committed), r, driver)
    {
      if r < |work.rides| && work.rides[r].status == Requested {
        work := work.(rides := work.rides[r := work.rides[r].(driver := Some(driver), status := Matched)]);
        Commit();
      }
    }

    method FailRide(r: RideId)
      requires work == committed
      modifies this
      ensures work == committed == Fail(old(committed), r)
    {
      if r < |work.rides| && work.rides[r].status == Requested {
        SetStatus(r, Failed);
        Commit();
      }
    }

    method MarkRideBilled(r: RideId, bill: nat)
      requires work == committed
      modifies this
      ensures work == committed == MarkBilled(old(committed), r, bill)
    {
      if r < |work.rides| && work.rides[r].bill == None {
        work := work.(rides := work.rides[r := work.rides[r].(bill := Some(bill))]);
        Commit();
      }
    }
  }

  // ---- Runs ----------------------------------------------------------------------------------

  datatype Step =
    | DoCreate(client: UserId, price: int, currency: string)
    | DoMatch(ride: RideId, driver: UserId)
    | DoFail(ride: RideId)
    | DoBill(ride: RideId, bill: nat)
    | DoStart(ride: RideId, driver: UserId)
    | DoComplete(ride: RideId, driver: UserId)
    | DoCancel(ride: RideId, client: UserId, fee: Option<Fee>)

  /** Prices and fees are int64. */
  predicate Enabled(step: Step) {
    match step
    case DoCreate(_, price, _) => Int64.InRange(price)
    case DoCancel(_, _, Some(fee)) => Int64.InRange(fee.minor)
    case _ => true
  }

  function Next(db: Db, step: Step): Db {
    match step
    case DoCreate(client, price, currency) => Create(db, client, price, currency)
    case DoMatch(r, d) => MarkMatched(db, r, d)
    case DoFail(r) => Fail(db, r)
    case DoBill(r, bill) => MarkBilled(db, r, bill)
    case DoStart(r, d) => Start(db, r, d)
    case DoComplete(r, d) => Complete(db, r, d)
    case DoCancel(r, client, fee) => Cancel(db, r, client, fee)
  }

  // ---- The invariant -------------------------------------------------------------------------

  /** The events that end a ride. */
  predicate Terminal(e: Event) {
    e.RideCompleted? || e.RideCancelled?
  }

  predicate Ended(s: Status) {
    s.Completed? || s.Cancelled?
  }

  /** A terminal event tells what its ride's row says. */
  predicate EventTrue(db: Db, e: Event) {
    Terminal(e) ==>
      && e.ride < |db.rides|
      && var ride := db.rides[e.ride];
         if e.RideCompleted? then
           && ride.status.Completed? && ride.client == e.client && ride.driver == Some(e.driver)
           && ride.price == e.amount && ride.currency == e.currency && Int64.InRange(e.amount)
         else
           && ride.status.Cancelled? && ride.client == e.client && ride.driver == e.optDriver
           && (e.optDriver.None? ==> e.fee == 0) && Int64.InRange(e.fee)
  }

  predicate EndsRide(e: Event, r: RideId) {
    Terminal(e) && e.ride == r
  }

  ghost predicate Sound(db: Db) {
    && (forall r :: 0 <= r < |db.rides| ==> Int64.InRange(db.rides[r].price))
    && (forall i :: 0 <= i < |db.outbox| ==> EventTrue(db, db.outbox[i]))
    && (forall i, j :: 0 <= i < j < |db.outbox| && Terminal(db.outbox[i]) && Terminal(db.outbox[j]) ==>
          db.outbox[i].ride != db.outbox[j].ride)
    && (forall r :: 0 <= r < |db.rides| && Ended(db.rides[r].status) ==> Announced(db, r))
  }

  ghost predicate Announced(db: Db, r: RideId) {
    exists i :: 0 <= i < |db.outbox| && EndsRide(db.outbox[i], r)
  }

  /** A step leaves an ended ride's row alone, but for the bill. */
  predicate EndedKept(db: Db, db': Db) {
    |db.rides| <= |db'.rides| && |db.outbox| <= |db'.outbox| && db'.outbox[..|db.outbox|] == db.outbox &&
    forall r :: 0 <= r < |db.rides| && Ended(db.rides[r].status) ==> db'.rides[r] == db.rides[r].(bill := db'.rides[r].bill)
  }

  lemma {:induction false} StepKeepsEnded(db: Db, step: Step)
    ensures EndedKept(db, Next(db, step))
  {
  }

  lemma EventStaysTrue(db: Db, db': Db, e: Event)
    requires EventTrue(db, e) && EndedKept(db, db')
    ensures EventTrue(db', e)
  {
  }

  /** A step appends at most one event, and a terminal one only for a ride that ends with it. */
  lemma StepAppends(db: Db, step: Step)
    requires Sound(db) && Enabled(step)
    ensures var db' := Next(db, step);
      && |db'.outbox| <= |db.outbox| + 1
      && (|db'.outbox| > |db.outbox| && Terminal(db'.outbox[|db.outbox|]) ==>
            var e := db'.outbox[|db.outbox|];
            EventTrue(db', e) && e.ride < |db.rides| && !Ended(db.rides[e.ride].status))
      && (forall r :: 0 <= r < |db'.rides| && Ended(db'.rides[r].status) ==>
            (r < |db.rides| && Ended(db.rides[r].status)) ||
            (|db'.outbox| > |db.outbox| && EndsRide(db'.outbox[|db.outbox|], r)))
      && (forall r :: 0 <= r < |db'.rides| ==> Int64.InRange(db'.rides[r].price))
  {
  }

  lemma StepSound(db: Db, step: Step)
    requires Sound(db) && Enabled(step)
    ensures Sound(Next(db, step))
  {
    var db' := Next(db, step);
    StepKeepsEnded(db, step);
    StepAppends(db, step);
    forall i | 0 <= i < |db'.outbox| ensures EventTrue(db', db'.outbox[i]) {
      if i < |db.outbox| {
        assert db'.outbox[i] == db.outbox[i];
        EventStaysTrue(db, db', db.outbox[i]);
      }
    }
    forall i, j | 0 <= i < j < |db'.outbox| && Terminal(db'.outbox[i]) && Terminal(db'.outbox[j])
      ensures db'.outbox[i].ride != db'.outbox[j].ride
    {
      assert db'.outbox[i] == db.outbox[i] && EventTrue(db, db.outbox[i]);
      if j < |db.outbox| {
        assert db'.outbox[j] == db.outbox[j];
      }
    }
    forall r | 0 <= r < |db'.rides| && Ended(db'.rides[r].status) ensures Announced(db', r) {
      if r < |db.rides| && Ended(db.rides[r].status) {
        var i :| 0 <= i < |db.outbox| && EndsRide(db.outbox[i], r);
        assert db'.outbox[i] == db.outbox[i];
      }
    }
  }

  function Run(steps: seq<Step>): Db {
    if steps == [] then Db([], []) else Next(Run(steps[..|steps| - 1]), steps[|steps| - 1])
  }

  ghost predicate AllEnabled(steps: seq<Step>) {
    forall i :: 0 <= i < |steps| ==> Enabled(steps[i])
  }

  lemma {:induction false} RunSound(steps: seq<Step>)
    requires AllEnabled(steps)
    ensures Sound(Run(steps))
  {
    if steps != [] {
      RunSound(steps[..|steps| - 1]);
      StepSound(Run(steps[..|steps| - 1]), steps[|steps| - 1]);
    }
  }

  /** A ride leaves at most one ride.completed or ride.cancelled row, never both, and it tells the truth. */
  lemma OneTerminalEvent(steps: seq<Step>, i: nat, j: nat)
    requires AllEnabled(steps)
    requires var outbox := Run(steps).outbox; i < |outbox| && j < |outbox| && Terminal(outbox[i]) && Terminal(outbox[j])
    requires Run(steps).outbox[i].ride == Run(steps).outbox[j].ride
    ensures i == j && EventTrue(Run(steps), Run(steps).outbox[i])
  {
    RunSound(steps);
  }

  /** And it leaves one exactly when it has ended. */
  lemma AnnouncedIffEnded(steps: seq<Step>, r: RideId)
    requires AllEnabled(steps) && r < |Run(steps).rides|
    ensures Announced(Run(steps), r) <==> Ended(Run(steps).rides[r].status)
  {
    RunSound(steps);
    var db := Run(steps);
    if Announced(db, r) {
      var i :| 0 <= i < |db.outbox| && EndsRide(db.outbox[i], r);
      assert EventTrue(db, db.outbox[i]);
    }
  }
}
