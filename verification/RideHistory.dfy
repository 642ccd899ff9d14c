// Where a ride's state and its events come from: the diagram of its life, who may move it on, and the step
// of the run behind every row of the outbox.
module RideHistory {
  import opened Wrappers
  import opened Rides

  // ---- The diagram ---------------------------------------------------------------------------

  /** The step, done by the right person, takes the ride to status `to`. */
  predicate Moves(ride: Ride, r: RideId, step: Step, to: Status) {
    match to
    case Requested => false
    case Matched => ride.status.Requested? && step.DoMatch? && step.ride == r
    case Failed => ride.status.Requested? && step.DoFail? && step.ride == r
    case InProgress => ride.status.Matched? && step.DoStart? && step.ride == r && ride.driver == Some(step.driver)
    case Completed => ride.status.InProgress? && step.DoComplete? && step.ride == r && ride.driver == Some(step.driver)
    case Cancelled =>
      && (ride.status.Requested? || ride.status.Matched? || ride.status.Failed?)
      && step.DoCancel? && step.ride == r && step.client == ride.client && (ride.driver.Some? ==> step.fee.Some?)
  }

  /** A ride changes status exactly along the diagram. */
  lemma StatusMovesIff(db: Db, step: Step, r: RideId, to: Status)
    requires r < |db.rides| && db.rides[r].status != to
    ensures r < |Next(db, step).rides|
    ensures Next(db, step).rides[r].status == to <==> Moves(db.rides[r], r, step, to)
  {
  }

  /** The replies: nobody there, the wrong person, the wrong moment, or the move is made. */
  lemma RepliesSayWhy(db: Db, r: RideId, user: UserId, fee: Option<Fee>)
    requires r < |db.rides|
    ensures var ride := db.rides[r];
      && StartReply(db, r, user) == (if ride.driver != Some(user) then Forbidden
                                     else if Moves(ride, r, DoStart(r, user), InProgress) then Ok else Conflict)
      && CompleteReply(db, r, user) == (if ride.driver != Some(user) then Forbidden
                                        else if Moves(ride, r, DoComplete(r, user), Completed) then Ok else Conflict)
      && CancelReply(db, r, user, fee) == (if ride.client != user then Forbidden
                                           else if Moves(ride, r, DoCancel(r, user, fee), Cancelled) then Ok
                                           else if ride.status.InProgress? || ride.status.Completed? || ride.status.Cancelled? then Conflict
                                           else Error)
  {
  }

  /** What the request fixed stays, the bill is set once, and the driver is set with the match and never replaced. */
  lemma TermsStay(db: Db, step: Step, r: RideId)
    requires r < |db.rides|
    ensures var ride, ride' := db.rides[r], Next(db, step).rides[r];
      && ride'.client == ride.client && ride'.price == ride.price && ride'.currency == ride.currency
      && (ride'.bill == if step.DoBill? && step.ride == r && ride.bill.None? then Some(step.bill) else ride.bill)
      && (ride'.driver == if step.DoMatch? && step.ride == r && ride.status.Requested? then Some(step.driver) else ride.driver)
  {
  }

  // ---- The row that a step leaves ---------------------------------------------------------------

  /** The row that the step appends, if it is one that appends. */
  predicate Leaves(db: Db, step: Step, e: Event) {
    match e
    case RideRequested(r, client, price, currency) => step == DoCreate(client, price, currency) && r == |db.rides|
    case RideStarted(r, driver) => step == DoStart(r, driver) && r < |db.rides| && Moves(db.rides[r], r, step, InProgress)
    case RideCompleted(r, client, driver, amount, currency) =>
      && step == DoComplete(r, driver) && r < |db.rides| && Moves(db.rides[r], r, step, Completed)
      && client == db.rides[r].client && amount == db.rides[r].price && currency == db.rides[r].currency
    case RideCancelled(r, client, driver, fee, currency) =>
      && r < |db.rides| && Moves(db.rides[r], r, step, Cancelled)
      && client == step.client && driver == db.rides[r].driver
      && (if driver.Some? then step.fee == Some(Fee(fee, currency)) else fee == 0 && currency == db.rides[r].currency)
  }

  /** A step leaves one such row, or no row at all. */
  lemma StepLeaves(db: Db, step: Step, e: Event)
    ensures Leaves(db, step, e) <==> Next(db, step).outbox == db.outbox + [e]
    ensures Next(db, step).outbox == db.outbox || |Next(db, step).outbox| == |db.outbox| + 1
  {
    var outbox' := Next(db, step).outbox;
    if Leaves(db, step, e) {
      assert outbox' == db.outbox + [e];
    }
    if outbox' == db.outbox + [e] {
      assert outbox'[|db.outbox|] == e;
    }
  }

  /** A cancellation that goes through with a driver assigned charges what the calculator said. */
  lemma CancelChargesFee(db: Db, r: RideId, client: UserId, fee: Fee)
    requires r < |db.rides| && db.rides[r].driver.Some? && Moves(db.rides[r], r, DoCancel(r, client, Some(fee)), Cancelled)
    ensures Cancel(db, r, client, Some(fee)).outbox ==
            db.outbox + [RideCancelled(r, client, db.rides[r].driver, fee.minor, fee.currency)]
  {
    StepLeaves(db, DoCancel(r, client, Some(fee)), RideCancelled(r, client, db.rides[r].driver, fee.minor, fee.currency));
  }

  // ---- Whole runs ----------------------------------------------------------------------------

  /** Step `k` of the run left the row. */
  predicate LeftBy(steps: seq<Step>, k: nat, e: Event) {
    k < |steps| && Leaves(Run(steps[..k]), steps[k], e)
  }

  /** Every row of the outbox was left by a step of the run that was allowed to. */
  lemma {:induction false} RowHasOrigin(steps: seq<Step>, row: nat) returns (k: nat)
    requires row < |Run(steps).outbox|
    ensures LeftBy(steps, k, Run(steps).outbox[row])
  {
    var n := |steps| - 1;
    var db := Run(steps[..n]);
    StepLeaves(db, steps[n], Run(steps).outbox[row]);
    if row < |db.outbox| {
      StepKeepsEnded(db, steps[n]);
      assert Run(steps).outbox[..|db.outbox|][row] == db.outbox[row];
      k := RowHasOrigin(steps[..n], row);
      assert steps[..n][..k] == steps[..k];
    } else {
      k := n;
      assert Run(steps).outbox == db.outbox + [Run(steps).outbox[row]];
    }
  }

  /** The step that requested ride `r`. */
  predicate RequestedBy(steps: seq<Step>, k: nat, r: RideId, ride: Ride) {
    k < |steps| && steps[k] == DoCreate(ride.client, ride.price, ride.currency) && |Run(steps[..k]).rides| == r
  }

  /** A ride's client, price and currency are those of its request. */
  lemma {:induction false} RideHasRequest(steps: seq<Step>, r: RideId) returns (k: nat)
    requires r < |Run(steps).rides|
    ensures RequestedBy(steps, k, r, Run(steps).rides[r])
  {
    var n := |steps| - 1;
    var db := Run(steps[..n]);
    if r < |db.rides| {
      TermsStay(db, steps[n], r);
      k := RideHasRequest(steps[..n], r);
      assert steps[..n][..k] == steps[..k];
    } else {
      k := n;
    }
  }

  /** A cancellation row with a driver repeats the fee of the cancelling step, which was the client's. */
  lemma {:induction false} CancelledRowHasFee(steps: seq<Step>, row: nat) returns (k: nat)
    requires row < |Run(steps).outbox| && Run(steps).outbox[row].RideCancelled? && Run(steps).outbox[row].optDriver.Some?
    ensures var e := Run(steps).outbox[row];
      k < |steps| && steps[k] == DoCancel(e.ride, e.client, Some(Fee(e.fee, e.currency)))
  {
    k := RowHasOrigin(steps, row);
  }

  /** A completed ride is charged at the price that its client was quoted with the request. */
  lemma {:induction false} CompletedRowHasQuote(steps: seq<Step>, row: nat) returns (k: nat)
    requires row < |Run(steps).outbox| && Run(steps).outbox[row].RideCompleted?
    ensures var e := Run(steps).outbox[row];
      k < |steps| && steps[k] == DoCreate(e.client, e.amount, e.currency) && |Run(steps[..k]).rides| == e.ride
  {
    var j := RowHasOrigin(steps, row);
    var e := Run(steps).outbox[row];
    k := RideHasRequest(steps[..j], e.ride);
    assert steps[..j][..k] == steps[..k];
  }
}
