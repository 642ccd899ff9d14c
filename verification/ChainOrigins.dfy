// What an invoice's amount goes back to, across two services and two topics: the fee that was calculated
// when the client cancelled, or the price that was quoted when the client requested the ride.
module ChainOrigins {
  import opened Wrappers
  import opened DeliveryChain
  import BT = BillingTables
  import Rides
  import Consumer
  import RideHistory

  /** What happens to the ride service in a run of the chain. */
  function RideSteps(steps: seq<Step>): seq<Rides.Step> {
    if steps == [] then []
    else
      var n := |steps| - 1;
      RideSteps(steps[..n]) +
        if steps[n].RideStep? && Rides.Enabled(steps[n].step) then [steps[n].step] else []
  }

  /** The ride service does not notice the rest of the chain. */
  lemma {:induction false} RidesRunAlone(cfg: BT.Config, steps: seq<Step>)
    ensures Run(cfg, steps).rides == Rides.Run(RideSteps(steps))
  {
    if steps != [] {
      var n := |steps| - 1;
      RidesRunAlone(cfg, steps[..n]);
      OthersLeaveRides(cfg, Run(cfg, steps[..n]), steps[n]);
      if steps[n].RideStep? && Rides.Enabled(steps[n].step) {
        assert RideSteps(steps)[..|RideSteps(steps)| - 1] == RideSteps(steps[..n]);
      } else {
        assert RideSteps(steps) == RideSteps(steps[..n]);
      }
    }
  }

  lemma OthersLeaveRides(cfg: BT.Config, c: Chain, s: Step)
    ensures Next(cfg, c, s).rides == if s.RideStep? && Rides.Enabled(s.step) then Rides.Next(c.rides, s.step) else c.rides
  {
  }

  lemma {:induction false} FromTheRun(steps: seq<Step>, k: nat)
    requires k < |RideSteps(steps)|
    ensures RideStep(RideSteps(steps)[k]) in steps
  {
    var n := |steps| - 1;
    if k < |RideSteps(steps[..n])| {
      FromTheRun(steps[..n], k);
    }
  }

  /** An invoice bills the fee of the client's cancelling step, or the price of the client's request. */
  lemma {:induction false} InvoiceHasOrigin(cfg: BT.Config, steps: seq<Step>, i: nat)
    requires i < |Run(cfg, steps).billing.db.invoices|
    ensures var inv := Run(cfg, steps).billing.db.invoices[i];
      if inv.kind.CancellationFee?
      then RideStep(Rides.DoCancel(inv.rideId, inv.clientId, Some(Rides.Fee(inv.amount, inv.currency)))) in steps
      else RideStep(Rides.DoCreate(inv.clientId, inv.amount, inv.currency)) in steps
  {
    var c := Run(cfg, steps);
    var inv := c.billing.db.invoices[i];
    OneInvoicePerRide(cfg, steps, i, i);
    RidesRunAlone(cfg, steps);
    var row: nat :| BilledBy(c.rides, inv, row);
    if inv.kind.CancellationFee? {
      var k := RideHistory.CancelledRowHasFee(RideSteps(steps), row);
      FromTheRun(steps, k);
    } else {
      var k := RideHistory.CompletedRowHasQuote(RideSteps(steps), row);
      FromTheRun(steps, k);
    }
  }

  /** Every event that ends a ride gets to billing: publishing its row puts it on the topic of its kind. */
  lemma EndingsAreDelivered(cfg: BT.Config, c: Chain, row: nat)
    requires row < |c.rides.outbox| && Rides.Terminal(c.rides.outbox[row])
    ensures var c' := Next(cfg, c, Publish(row)); var e := c.rides.outbox[row];
      if e.RideCompleted?
      then c'.completed.topic == c.completed.topic + [Consumer.Payload(e)] && c'.cancelled == c.cancelled
      else c'.cancelled.topic == c.cancelled.topic + [Consumer.Payload(e)] && c'.completed == c.completed
  {
  }

  /** The invoice bills just this. */
  predicate BillsExactly(
      inv: BT.Invoice, ride: nat, client: nat, driver: Option<nat>, kind: BT.InvoiceType, amount: int, currency: string)
  {
    && inv.rideId == ride && inv.clientId == client && inv.driverId == driver
    && inv.kind == kind && inv.amount == amount && inv.currency == currency
  }

  /** Once its offset is committed, a completed ride and a cancellation with a fee have been invoiced to the letter. */
  lemma {:induction false} CommittedIsBilled(cfg: BT.Config, steps: seq<Step>, t: Topic, m: nat)
    requires var lane := LaneOf(Run(cfg, steps), t); m < lane.progress.committed <= |lane.topic| && lane.topic[m].Payload?
    ensures var c := Run(cfg, steps); var invoices := c.billing.db.invoices;
      match LaneOf(c, t).topic[m].value
      case RideCompleted(r, client, driver, amount, currency) =>
        exists i :: 0 <= i < |invoices| && BillsExactly(invoices[i], r, client, Some(driver), BT.RideFare, amount, currency)
      case RideCancelled(r, client, driver, fee, currency) =>
        fee != 0 ==>
          exists i :: 0 <= i < |invoices| && BillsExactly(invoices[i], r, client, driver, BT.CancellationFee, fee, currency)
      case _ => true
  {
    var c := Run(cfg, steps);
    var e := LaneOf(c, t).topic[m].value;
    if ChargeOf(e).Some? {
      CommittedMeansInvoiced(cfg, steps, t, m);
      var i :| 0 <= i < |c.billing.db.invoices| && Bills(c.billing.db.invoices[i], ChargeOf(e).value);
      var inv := c.billing.db.invoices[i];
      assert e.RideCompleted? ==> BillsExactly(inv, e.ride, e.client, Some(e.driver), BT.RideFare, e.amount, e.currency);
      assert e.RideCancelled? ==> BillsExactly(inv, e.ride, e.client, e.optDriver, BT.CancellationFee, e.fee, e.currency);
    }
  }
}
