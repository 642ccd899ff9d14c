// From the ride's last event to its invoice: the ride service's outbox, two Kafka topics, the billing
// consumers and the billing database, with every message published and delivered any number of times.
module DeliveryChain {
  import opened Wrappers
  import Rides
  import Consumer
  import BT = BillingTables
  import BC = BillingCommands
  import BI = BillingInvariant
  import BP = BillingProtocol
  import Ledger

  type Record = Consumer.Record<Rides.Event>

  /** A topic and the billing consumer's progress on it. */
  type Lane = Consumer.Stream<Rides.Event>

  datatype Chain = Chain(rides: Rides.Db, completed: Lane, cancelled: Lane, billing: BP.World)

  datatype Topic = Completed | Cancelled

  function LaneOf(c: Chain, t: Topic): Lane {
    if t.Completed? then c.completed else c.cancelled
  }

  function WithLane(c: Chain, t: Topic, lane: Lane): Chain {
    if t.Completed? then c.(completed := lane) else c.(cancelled := lane)
  }

  /** The topic a ride event is published to, if billing listens to it. */
  function TopicOf(e: Rides.Event): Option<Topic> {
    if e.RideCompleted? then Some(Completed) else if e.RideCancelled? then Some(Cancelled) else None
  }

  /** What the consumer asks billing to charge; a free cancellation is skipped. */
  function ChargeOf(e: Rides.Event): (r: Option<BC.RideCharge>)
    ensures r.Some? && r.value.kind.RideFare? ==> r.value.driverId.Some?
  {
    match e
    case RideCompleted(r, client, driver, amount, currency) =>
      Some(BC.RideCharge(r, client, Some(driver), BT.RideFare, amount, currency))
    case RideCancelled(r, client, driver, fee, currency) =>
      if fee == 0 then None
      else Some(BC.RideCharge(r, client, driver, BT.CancellationFee, fee, currency))
    case _ => None
  }

  datatype Step =
    | RideStep(step: Rides.Step)
    /** The outbox worker publishes row `row`, possibly not for the first time. */
    | Publish(row: nat)
    /** Bytes that do not parse turn up on a topic. */
    | Garbage(topic: Topic)
    /** One turn of a consumer: `reached` when the transaction runs, `answered` when its success comes back. */
    | Turn(topic: Topic, now: int, reached: bool, answered: bool, stored: bool)
    | Restart(topic: Topic)
    /** Anything else that happens in billing. */
    | BillingStep(action: BP.Step)

  function Settled(cfg: BT.Config, w: BP.World, e: Rides.Event, now: int): BP.World {
    match ChargeOf(e)
    case None => w
    case Some(charge) => BP.Settle(w, BC.CreateInvoice(w.db, charge, now, cfg))
  }

  /** The handler succeeds when there is nothing to charge or the invoice transaction commits. */
  predicate Accepts(cfg: BT.Config, w: BP.World, e: Rides.Event, now: int) {
    match ChargeOf(e)
    case None => true
    case Some(charge) => BC.CreateInvoice(w.db, charge, now, cfg).Done?
  }

  function Next(cfg: BT.Config, c: Chain, s: Step): Chain {
    match s
    case RideStep(step) => if Rides.Enabled(step) then c.(rides := Rides.Next(c.rides, step)) else c
    case Publish(row) =>
      if row >= |c.rides.outbox| || TopicOf(c.rides.outbox[row]).None? then c
      else
        var t := TopicOf(c.rides.outbox[row]).value;
        WithLane(c, t, Consumer.Next(LaneOf(c, t), Consumer.Append(Consumer.Payload(c.rides.outbox[row]))))
    case Garbage(t) => WithLane(c, t, Consumer.Next(LaneOf(c, t), Consumer.Append(Consumer.Poison)))
    case Turn(t, now, reached, answered, stored) =>
      var lane := LaneOf(c, t);
      var p := lane.progress.next;
      if p < |lane.topic| && lane.topic[p].Payload? then
        var e := lane.topic[p].value;
        var handled := reached && answered && Accepts(cfg, c.billing, e, now);
        WithLane(if reached then c.(billing := Settled(cfg, c.billing, e, now)) else c, t,
          Consumer.Next(lane, Consumer.Tries(Consumer.Try(handled, stored))))
      else WithLane(c, t, Consumer.Next(lane, Consumer.Tries(Consumer.Try(false, stored))))
    case Restart(t) => WithLane(c, t, Consumer.Next(LaneOf(c, t), Consumer.Restarts))
    case BillingStep(action) =>
      if action.Create? then c else c.(billing := BP.Next(cfg, c.billing, action))
  }

  function Empty(): Lane {
    Consumer.Stream([], Consumer.Progress(0, 0, []))
  }

  function Run(cfg: BT.Config, steps: seq<Step>): Chain {
    if steps == [] then Chain(Rides.Db([], []), Empty(), Empty(), BP.Init())
    else Next(cfg, Run(cfg, steps[..|steps| - 1]), steps[|steps| - 1])
  }

  // ---- The invariant -------------------------------------------------------------------------

  /** Everything on a topic was written by the ride service, for that topic. */
  ghost predicate Genuine(rides: Rides.Db, lane: Lane, t: Topic) {
    forall m :: 0 <= m < |lane.topic| && lane.topic[m].Payload? ==>
      lane.topic[m].value in rides.outbox && TopicOf(lane.topic[m].value) == Some(t)
  }

  predicate Bills(inv: BT.Invoice, charge: BC.RideCharge) {
    && inv.rideId == charge.rideId && inv.clientId == charge.clientId && inv.driverId == charge.driverId
    && inv.kind == charge.kind && inv.amount == charge.amount && inv.currency == charge.currency
  }

  predicate Source(rides: Rides.Db, inv: BT.Invoice, row: nat) {
    row < |rides.outbox| && ChargeOf(rides.outbox[row]).Some? && Bills(inv, ChargeOf(rides.outbox[row]).value)
  }

  /** The invoice bills a charge that some outbox row asks for. */
  ghost predicate Sourced(rides: Rides.Db, inv: BT.Invoice) {
    exists row :: Source(rides, inv, row)
  }

  /** Every message the consumer accepted has its invoice. */
  ghost predicate Invoiced(lane: Lane, invoices: seq<BT.Invoice>) {
    forall m :: m in lane.progress.done && m < |lane.topic| && lane.topic[m].Payload? ==>
      EventInvoiced(lane.topic[m].value, invoices)
  }

  predicate EventInvoiced(e: Rides.Event, invoices: seq<BT.Invoice>) {
    ChargeOf(e).Some? ==> BT.HasInvoice(invoices, ChargeOf(e).value.rideId, ChargeOf(e).value.kind)
  }

  ghost predicate LaneSound(c: Chain, t: Topic) {
    var lane := LaneOf(c, t);
    Consumer.Sound(lane.progress, lane.topic) && Genuine(c.rides, lane, t) && Invoiced(lane, c.billing.db.invoices)
    && forall m :: m in lane.progress.done ==> m < |lane.topic|
  }

  ghost predicate Sound(cfg: BT.Config, c: Chain) {
    && Rides.Sound(c.rides)
    && BP.Sound(cfg, c.billing)
    && (forall i :: 0 <= i < |c.billing.db.invoices| ==> Sourced(c.rides, c.billing.db.invoices[i]))
    && LaneSound(c, Completed) && LaneSound(c, Cancelled)
  }

  // ---- Billing keeps its invoices' terms ------------------------------------------------------

  /** Invoices keep their terms, and no others appear. */
  ghost predicate SameTerms(invoices: seq<BT.Invoice>, invoices': seq<BT.Invoice>) {
    |invoices| == |invoices'| && forall i :: 0 <= i < |invoices| ==> BI.SameInvoice(invoices'[i], invoices[i])
  }

  lemma BillingKeepsTerms(cfg: BT.Config, w: BP.World, s: BP.Step)
    requires !s.Create?
    ensures SameTerms(w.db.invoices, BP.Next(cfg, w, s).db.invoices)
  {
  }

  lemma HasInvoiceKept(invoices: seq<BT.Invoice>, invoices': seq<BT.Invoice>, r: nat, kind: BT.InvoiceType)
    requires SameTerms(invoices, invoices') && BT.HasInvoice(invoices, r, kind)
    ensures BT.HasInvoice(invoices', r, kind)
  {
    var i :| 0 <= i < |invoices| && invoices[i].rideId == r && invoices[i].kind == kind;
    assert BI.SameInvoice(invoices'[i], invoices[i]);
  }

  /** The lanes do not notice other billing work. */
  lemma LaneKeptByBilling(c: Chain, w: BP.World, t: Topic)
    requires LaneSound(c, t) && SameTerms(c.billing.db.invoices, w.db.invoices)
    ensures LaneSound(c.(billing := w), t)
  {
    var lane := LaneOf(c, t);
    forall m | m in lane.progress.done && m < |lane.topic| && lane.topic[m].Payload?
      ensures EventInvoiced(lane.topic[m].value, w.db.invoices)
    {
      var e := lane.topic[m].value;
      assert EventInvoiced(e, c.billing.db.invoices);
      if ChargeOf(e).Some? {
        HasInvoiceKept(c.billing.db.invoices, w.db.invoices, ChargeOf(e).value.rideId, ChargeOf(e).value.kind);
      }
    }
  }

  lemma BillingStepKeeps(cfg: BT.Config, c: Chain, action: BP.Step)
    requires Sound(cfg, c) && !action.Create?
    ensures Sound(cfg, c.(billing := BP.Next(cfg, c.billing, action)))
  {
    var w := BP.Next(cfg, c.billing, action);
    BP.NextSound(cfg, c.billing, action);
    BillingKeepsTerms(cfg, c.billing, action);
    LaneKeptByBilling(c, w, Completed);
    LaneKeptByBilling(c, w, Cancelled);
    forall i | 0 <= i < |w.db.invoices| ensures Sourced(c.rides, w.db.invoices[i]) {
      assert BI.SameInvoice(w.db.invoices[i], c.billing.db.invoices[i]);
      var row :| Source(c.rides, c.billing.db.invoices[i], row);
      assert Source(c.rides, w.db.invoices[i], row);
    }
  }

  // ---- Rides and topics -----------------------------------------------------------------------

  lemma OutboxGrows(db: Rides.Db, step: Rides.Step)
    ensures |db.outbox| <= |Rides.Next(db, step).outbox|
    ensures forall i :: 0 <= i < |db.outbox| ==> Rides.Next(db, step).outbox[i] == db.outbox[i]
  {
    Rides.StepKeepsEnded(db, step);
    assert forall i :: 0 <= i < |db.outbox| ==> Rides.Next(db, step).outbox[..|db.outbox|][i] == db.outbox[i];
  }

  lemma LaneKeptByRides(c: Chain, db: Rides.Db, t: Topic)
    requires LaneSound(c, t) && |c.rides.outbox| <= |db.outbox|
    requires forall i :: 0 <= i < |c.rides.outbox| ==> db.outbox[i] == c.rides.outbox[i]
    ensures LaneSound(c.(rides := db), t)
  {
    var lane := LaneOf(c, t);
    forall m | 0 <= m < |lane.topic| && lane.topic[m].Payload? ensures lane.topic[m].value in db.outbox {
      var i :| 0 <= i < |c.rides.outbox| && c.rides.outbox[i] == lane.topic[m].value;
      assert db.outbox[i] == lane.topic[m].value;
    }
  }

  lemma RideStepKeeps(cfg: BT.Config, c: Chain, step: Rides.Step)
    requires Sound(cfg, c) && Rides.Enabled(step)
    ensures Sound(cfg, c.(rides := Rides.Next(c.rides, step)))
  {
    var db := Rides.Next(c.rides, step);
    Rides.StepSound(c.rides, step);
    OutboxGrows(c.rides, step);
    LaneKeptByRides(c, db, Completed);
    LaneKeptByRides(c, db, Cancelled);
    forall i | 0 <= i < |c.billing.db.invoices| ensures Sourced(db, c.billing.db.invoices[i]) {
      var row :| Source(c.rides, c.billing.db.invoices[i], row);
      assert Source(db, c.billing.db.invoices[i], row);
    }
  }

  /** A record joins a topic: a genuine event, or garbage. */
  lemma AppendKeeps(cfg: BT.Config, c: Chain, t: Topic, r: Record)
    requires Sound(cfg, c)
    requires r.Payload? ==> r.value in c.rides.outbox && TopicOf(r.value) == Some(t)
    ensures Sound(cfg, WithLane(c, t, Consumer.Next(LaneOf(c, t), Consumer.Append(r))))
  {
    var lane := LaneOf(c, t);
    var c' := WithLane(c, t, Consumer.Next(lane, Consumer.Append(r)));
    Consumer.AppendSound(lane.progress, lane.topic, r);
    assert LaneSound(c', t);
    assert LaneSound(c', Completed) && LaneSound(c', Cancelled);
  }

  lemma RestartKeeps(cfg: BT.Config, c: Chain, t: Topic)
    requires Sound(cfg, c)
    ensures Sound(cfg, WithLane(c, t, Consumer.Next(LaneOf(c, t), Consumer.Restarts)))
  {
    var lane := LaneOf(c, t);
    var c' := WithLane(c, t, Consumer.Next(lane, Consumer.Restarts));
    Consumer.RestartSound(lane.progress, lane.topic);
    assert LaneSound(c', t);
    assert LaneSound(c', Completed) && LaneSound(c', Cancelled);
  }

  // ---- A consumer's turn ----------------------------------------------------------------------

  /** The handler's transaction keeps billing sound, adds at most the event's invoice, and leaves one. */
  lemma SettlingKeeps(cfg: BT.Config, c: Chain, e: Rides.Event, now: int)
    requires Sound(cfg, c) && e in c.rides.outbox
    ensures Sound(cfg, c.(billing := Settled(cfg, c.billing, e, now)))
    ensures Accepts(cfg, c.billing, e, now) ==> EventInvoiced(e, Settled(cfg, c.billing, e, now).db.invoices)
  {
    if ChargeOf(e).Some? {
      var charge := ChargeOf(e).value;
      var row :| 0 <= row < |c.rides.outbox| && c.rides.outbox[row] == e;
      assert Rides.EventTrue(c.rides, e);
      var r := BC.CreateInvoice(c.billing.db, charge, now, cfg);
      BP.CreateSound(cfg, c.billing, charge, now);
      if r.Done? {
        var invoices, invoices' := c.billing.db.invoices, r.db.invoices;
        CreateAdds(c.billing.db, charge, now, cfg);
        LaneKeptByCreate(c, BP.Settle(c.billing, r), Completed);
        LaneKeptByCreate(c, BP.Settle(c.billing, r), Cancelled);
        forall i | 0 <= i < |invoices'| ensures Sourced(c.rides, invoices'[i]) {
          if i == |invoices| {
            assert Source(c.rides, invoices'[i], row);
          }
        }
      }
    }
  }

  lemma CreateAdds(db: BT.Tables, charge: BC.RideCharge, now: int, cfg: BT.Config)
    requires charge.kind.RideFare? ==> charge.driverId.Some?
    requires BC.CreateInvoice(db, charge, now, cfg).Done?
    ensures var invoices' := BC.CreateInvoice(db, charge, now, cfg).db.invoices;
      && BT.HasInvoice(invoices', charge.rideId, charge.kind)
      && |db.invoices| <= |invoices'| <= |db.invoices| + 1
      && (forall i :: 0 <= i < |db.invoices| ==> invoices'[i] == db.invoices[i])
      && (|invoices'| > |db.invoices| ==> Bills(invoices'[|db.invoices|], charge))
  {
    var invoices' := BC.CreateInvoice(db, charge, now, cfg).db.invoices;
    if !BT.HasInvoice(db.invoices, charge.rideId, charge.kind) {
      assert invoices'[|db.invoices|] == BC.NewInvoice(charge, now);
    }
  }

  lemma LaneKeptByCreate(c: Chain, w: BP.World, t: Topic)
    requires LaneSound(c, t) && |c.billing.db.invoices| <= |w.db.invoices|
    requires forall i :: 0 <= i < |c.billing.db.invoices| ==> w.db.invoices[i] == c.billing.db.invoices[i]
    ensures LaneSound(c.(billing := w), t)
  {
    var lane := LaneOf(c, t);
    forall m | m in lane.progress.done && m < |lane.topic| && lane.topic[m].Payload?
      ensures EventInvoiced(lane.topic[m].value, w.db.invoices)
    {
      var e := lane.topic[m].value;
      assert EventInvoiced(e, c.billing.db.invoices);
      if ChargeOf(e).Some? {
        var i :| 0 <= i < |c.billing.db.invoices| && c.billing.db.invoices[i].rideId == ChargeOf(e).value.rideId &&
                 c.billing.db.invoices[i].kind == ChargeOf(e).value.kind;
        assert w.db.invoices[i] == c.billing.db.invoices[i];
      }
    }
  }

  /** The cursor moves on after billing has its invoice. */
  lemma TriesKeeps(cfg: BT.Config, c: Chain, t: Topic, try: Consumer.Try)
    requires Sound(cfg, c)
    requires var lane := LaneOf(c, t); var p := lane.progress.next;
      try.handled && p < |lane.topic| && lane.topic[p].Payload? ==>
        EventInvoiced(lane.topic[p].value, c.billing.db.invoices)
    ensures Sound(cfg, WithLane(c, t, Consumer.Next(LaneOf(c, t), Consumer.Tries(try))))
  {
    var lane := LaneOf(c, t);
    var c' := WithLane(c, t, Consumer.Next(lane, Consumer.Tries(try)));
    Consumer.AttemptSound(lane.progress, lane.topic, try);
    assert LaneSound(c', t);
    assert LaneSound(c', Completed) && LaneSound(c', Cancelled);
  }

  lemma TurnKeeps(cfg: BT.Config, c: Chain, s: Step)
    requires Sound(cfg, c) && s.Turn?
    ensures Sound(cfg, Next(cfg, c, s))
  {
    var lane := LaneOf(c, s.topic);
    var p := lane.progress.next;
    if p < |lane.topic| && lane.topic[p].Payload? {
      var e := lane.topic[p].value;
      assert LaneSound(c, s.topic);
      SettlingKeeps(cfg, c, e, s.now);
      var c1 := if s.reached then c.(billing := Settled(cfg, c.billing, e, s.now)) else c;
      var handled := s.reached && s.answered && Accepts(cfg, c.billing, e, s.now);
      TriesKeeps(cfg, c1, s.topic, Consumer.Try(handled, s.stored));
    } else {
      TriesKeeps(cfg, c, s.topic, Consumer.Try(false, s.stored));
    }
  }

  lemma StepKeeps(cfg: BT.Config, c: Chain, s: Step)
    requires Sound(cfg, c)
    ensures Sound(cfg, Next(cfg, c, s))
  {
    match s
    case RideStep(step) => if Rides.Enabled(step) { RideStepKeeps(cfg, c, step); }
    case Publish(row) =>
      if row < |c.rides.outbox| && TopicOf(c.rides.outbox[row]).Some? {
        AppendKeeps(cfg, c, TopicOf(c.rides.outbox[row]).value, Consumer.Payload(c.rides.outbox[row]));
      }
    case Garbage(t) => AppendKeeps(cfg, c, t, Consumer.Poison);
    case Turn(_, _, _, _, _) => TurnKeeps(cfg, c, s);
    case Restart(t) => RestartKeeps(cfg, c, t);
    case BillingStep(action) => if !action.Create? { BillingStepKeeps(cfg, c, action); }
  }

  lemma {:induction false} RunSound(cfg: BT.Config, steps: seq<Step>)
    ensures Sound(cfg, Run(cfg, steps))
  {
    if steps == [] {
      BP.InitSound(cfg);
    } else {
      RunSound(cfg, steps[..|steps| - 1]);
      StepKeeps(cfg, Run(cfg, steps[..|steps| - 1]), steps[|steps| - 1]);
    }
  }

  // ---- Main results ---------------------------------------------------------------------------

  /** What the ride's row says about its invoice. */
  predicate FollowsRide(rides: Rides.Db, inv: BT.Invoice) {
    && inv.rideId < |rides.rides|
    && var ride := rides.rides[inv.rideId];
       && inv.clientId == ride.client && inv.driverId == ride.driver && ride.driver.Some?
       && (if inv.kind.RideFare? then
             ride.status.Completed? && inv.amount == ride.price && inv.currency == ride.currency
           else ride.status.Cancelled? && inv.amount != 0)
  }

  lemma SourceFollowsRide(rides: Rides.Db, inv: BT.Invoice, row: nat)
    requires Rides.Sound(rides) && Source(rides, inv, row)
    ensures FollowsRide(rides, inv) && Rides.EndsRide(rides.outbox[row], inv.rideId)
  {
    assert Rides.EventTrue(rides, rides.outbox[row]);
  }

  /** Row `row` is the one event that ends the invoice's ride, and the invoice bills what it asks for. */
  ghost predicate BilledBy(rides: Rides.Db, inv: BT.Invoice, row: nat) {
    && Source(rides, inv, row) && Rides.EndsRide(rides.outbox[row], inv.rideId)
    && forall other :: 0 <= other < |rides.outbox| && Rides.EndsRide(rides.outbox[other], inv.rideId) ==> other == row
  }

  lemma SourceBills(rides: Rides.Db, inv: BT.Invoice, row: nat)
    requires Rides.Sound(rides) && Source(rides, inv, row)
    ensures FollowsRide(rides, inv) && BilledBy(rides, inv, row)
  {
    SourceFollowsRide(rides, inv, row);
  }

  /**
   * However often its events are published and delivered, a ride has at most one invoice: of the type
   * that its final status calls for, and with the amount, people and currency of the one event that ended it.
   */
  lemma {:induction false} OneInvoicePerRide(cfg: BT.Config, steps: seq<Step>, i: nat, j: nat)
    requires var invoices := Run(cfg, steps).billing.db.invoices;
      i < |invoices| && j < |invoices| && invoices[i].rideId == invoices[j].rideId
    ensures i == j && FollowsRide(Run(cfg, steps).rides, Run(cfg, steps).billing.db.invoices[i])
    ensures exists row: nat :: BilledBy(Run(cfg, steps).rides, Run(cfg, steps).billing.db.invoices[i], row)
  {
    RunSound(cfg, steps);
    var c := Run(cfg, steps);
    var invoices := c.billing.db.invoices;
    var p :| Source(c.rides, invoices[i], p);
    var q :| Source(c.rides, invoices[j], q);
    SourceBills(c.rides, invoices[i], p);
    SourceBills(c.rides, invoices[j], q);
    assert p == q;
    assert invoices[i].kind == invoices[j].kind;
  }

  /** Nothing is lost: an event below the committed cursor that asks for a charge has its invoice. */
  lemma CommittedMeansInvoiced(cfg: BT.Config, steps: seq<Step>, t: Topic, m: nat)
    requires var lane := LaneOf(Run(cfg, steps), t); m < lane.progress.committed <= |lane.topic| && lane.topic[m].Payload?
    requires ChargeOf(LaneOf(Run(cfg, steps), t).topic[m].value).Some?
    ensures var c := Run(cfg, steps); var charge := ChargeOf(LaneOf(c, t).topic[m].value).value;
      exists i :: 0 <= i < |c.billing.db.invoices| && Bills(c.billing.db.invoices[i], charge)
  {
    RunSound(cfg, steps);
    var c := Run(cfg, steps);
    var lane := LaneOf(c, t);
    assert LaneSound(c, t) && Consumer.Covered(lane.progress.done, lane.topic, m);
    var e := lane.topic[m].value;
    assert EventInvoiced(e, c.billing.db.invoices);
    var charge := ChargeOf(e).value;
    var i :| 0 <= i < |c.billing.db.invoices| && c.billing.db.invoices[i].rideId == charge.rideId &&
             c.billing.db.invoices[i].kind == charge.kind;
    var row :| Source(c.rides, c.billing.db.invoices[i], row);
    var row' :| 0 <= row' < |c.rides.outbox| && c.rides.outbox[row'] == e;
    SourceFollowsRide(c.rides, c.billing.db.invoices[i], row);
    assert Rides.EndsRide(c.rides.outbox[row'], charge.rideId);
    assert row == row';
  }

  // ---- The other side of retrying in place ----------------------------------------------------

  /** The event asks for a charge whose first posting the ledger refuses. */
  predicate RefusedEvent(cfg: BT.Config, e: Rides.Event) {
    ChargeOf(e).Some? && Refused(cfg, ChargeOf(e).value)
  }

  predicate Refused(cfg: BT.Config, charge: BC.RideCharge)
    requires charge.kind.RideFare? ==> charge.driverId.Some?
  {
    !Ledger.Storable(Ledger.T1Legs(
      charge.kind, charge.clientId, charge.driverId, charge.amount, charge.currency, cfg.commissionBps))
  }

  lemma NeverInvoiced(cfg: BT.Config, c: Chain, e: Rides.Event)
    requires Sound(cfg, c) && e in c.rides.outbox && ChargeOf(e).Some? && Refused(cfg, ChargeOf(e).value)
    ensures forall now :: !Accepts(cfg, c.billing, e, now)
  {
    var charge := ChargeOf(e).value;
    var row :| 0 <= row < |c.rides.outbox| && c.rides.outbox[row] == e;
    forall i | 0 <= i < |c.billing.db.invoices| && c.billing.db.invoices[i].rideId == charge.rideId
      ensures c.billing.db.invoices[i].kind != charge.kind
    {
      OtherKind(cfg, c, charge, row, i);
    }
  }

  /** An invoice of the ride cannot be for the charge that the ledger refuses. */
  lemma OtherKind(cfg: BT.Config, c: Chain, charge: BC.RideCharge, row: nat, i: nat)
    requires Sound(cfg, c) && row < |c.rides.outbox| && ChargeOf(c.rides.outbox[row]) == Some(charge)
    requires Refused(cfg, charge) && i < |c.billing.db.invoices|
    ensures !(c.billing.db.invoices[i].rideId == charge.rideId && c.billing.db.invoices[i].kind == charge.kind)
  {
    var source :| Source(c.rides, c.billing.db.invoices[i], source);
    SourceFollowsRide(c.rides, c.billing.db.invoices[i], source);
    assert Rides.EventTrue(c.rides, c.rides.outbox[row]);
    assert BI.SoundInvoice(c.billing.db.invoices[i], cfg.commissionBps);
  }

  /** A turn on a refused event moves nothing on its topic. */
  lemma RefusedTurn(cfg: BT.Config, steps: seq<Step>, s: Step)
    requires s.Turn?
    requires var lane := LaneOf(Run(cfg, steps), s.topic); var p := lane.progress.next;
      p < |lane.topic| && lane.topic[p].Payload? && RefusedEvent(cfg, lane.topic[p].value)
    ensures LaneOf(Next(cfg, Run(cfg, steps), s), s.topic) == LaneOf(Run(cfg, steps), s.topic)
  {
    RunSound(cfg, steps);
    RefusedTurnIn(cfg, Run(cfg, steps), s);
  }

  lemma RefusedTurnIn(cfg: BT.Config, c: Chain, s: Step)
    requires Sound(cfg, c) && s.Turn?
    requires var lane := LaneOf(c, s.topic); var p := lane.progress.next;
      p < |lane.topic| && lane.topic[p].Payload? && RefusedEvent(cfg, lane.topic[p].value)
    ensures LaneOf(Next(cfg, c, s), s.topic) == LaneOf(c, s.topic)
  {
    var lane := LaneOf(c, s.topic);
    assert LaneSound(c, s.topic);
    NeverInvoiced(cfg, c, lane.topic[lane.progress.next].value);
  }

  /** What a step does to the records already on a topic: nothing. */
  lemma TopicKept(cfg: BT.Config, c: Chain, s: Step, t: Topic, m: nat)
    requires m < |LaneOf(c, t).topic|
    ensures var topic := LaneOf(Next(cfg, c, s), t).topic; m < |topic| && topic[m] == LaneOf(c, t).topic[m]
  {
  }

  lemma {:induction false} TopicKeptByRun(cfg: BT.Config, steps: seq<Step>, more: seq<Step>, t: Topic, m: nat)
    requires m < |LaneOf(Run(cfg, steps), t).topic|
    ensures var topic := LaneOf(Run(cfg, steps + more), t).topic;
      m < |topic| && topic[m] == LaneOf(Run(cfg, steps), t).topic[m]
  {
    if more == [] {
      assert steps + more == steps;
    } else {
      var n := |more| - 1;
      TopicKeptByRun(cfg, steps, more[..n], t, m);
      assert (steps + more)[..|steps + more| - 1] == steps + more[..n];
      TopicKept(cfg, Run(cfg, steps + more[..n]), more[n], t, m);
    }
  }

  /** In a sound state a refused event has no invoice, and its consumer is at it or before it. */
  lemma RefusedIsAhead(cfg: BT.Config, c: Chain, t: Topic, m: nat)
    requires Sound(cfg, c) && m < |LaneOf(c, t).topic| && LaneOf(c, t).topic[m].Payload?
    requires RefusedEvent(cfg, LaneOf(c, t).topic[m].value)
    ensures LaneOf(c, t).progress.committed <= LaneOf(c, t).progress.next <= m
    ensures !EventInvoiced(LaneOf(c, t).topic[m].value, c.billing.db.invoices)
  {
    var lane := LaneOf(c, t);
    var e := lane.topic[m].value;
    assert LaneSound(c, t);
    var row :| 0 <= row < |c.rides.outbox| && c.rides.outbox[row] == e;
    forall i | 0 <= i < |c.billing.db.invoices|
      ensures !(c.billing.db.invoices[i].rideId == ChargeOf(e).value.rideId &&
                c.billing.db.invoices[i].kind == ChargeOf(e).value.kind)
    {
      OtherKind(cfg, c, ChargeOf(e).value, row, i);
    }
    assert m < lane.progress.next ==> Consumer.Covered(lane.progress.done, lane.topic, m);
  }

  /**
   * An event whose first posting the ledger refuses, such as the fare of a ride too short for a whole unit
   * of commission, stops its consumer for good: through all turns, restarts and redeliveries that follow,
   * no cursor passes it and the ride's charge has no invoice.
   */
  lemma {:induction false} RefusedChargeBlocks(cfg: BT.Config, steps: seq<Step>, more: seq<Step>, t: Topic, m: nat)
    requires var topic := LaneOf(Run(cfg, steps), t).topic;
      m < |topic| && topic[m].Payload? && RefusedEvent(cfg, topic[m].value)
    ensures var c := Run(cfg, steps + more); var lane := LaneOf(c, t);
      && lane.progress.committed <= lane.progress.next <= m < |lane.topic|
      && !EventInvoiced(LaneOf(Run(cfg, steps), t).topic[m].value, c.billing.db.invoices)
  {
    TopicKeptByRun(cfg, steps, more, t, m);
    RunSound(cfg, steps + more);
    RefusedIsAhead(cfg, Run(cfg, steps + more), t, m);
  }

  // ---- A run that ends up there ---------------------------------------------------------------

  /** A ride of four minor units, from request to its published completion. */
  const SHORT_RIDE: seq<Step> := [
    RideStep(Rides.DoCreate(1, 4, "EUR")), RideStep(Rides.DoMatch(0, 2)),
    RideStep(Rides.DoStart(0, 2)), RideStep(Rides.DoComplete(0, 2)), Publish(2)]

  const SHORT_FARE: Rides.Event := Rides.RideCompleted(0, 1, 2, 4, "EUR")

  function ShortRideAt(k: nat): Chain {
    var request, started := Rides.RideRequested(0, 1, 4, "EUR"), Rides.RideStarted(0, 2);
    var ride := Rides.Ride(1, None, Rides.Requested, 4, "EUR", None);
    var taken := ride.(driver := Some(2));
    var start := Chain(Rides.Db([], []), Empty(), Empty(), BP.Init());
    match k
    case 0 => start
    case 1 => start.(rides := Rides.Db([ride], [request]))
    case 2 => start.(rides := Rides.Db([taken.(status := Rides.Matched)], [request]))
    case 3 => start.(rides := Rides.Db([taken.(status := Rides.InProgress)], [request, started]))
    case 4 => start.(rides := Rides.Db([taken.(status := Rides.Completed)], [request, started, SHORT_FARE]))
    case _ => Chain(Rides.Db([taken.(status := Rides.Completed)], [request, started, SHORT_FARE]),
                    Empty().(topic := [Consumer.Payload(SHORT_FARE)]), Empty(), BP.Init())
  }

  lemma ShortRideStep(cfg: BT.Config, k: nat)
    requires k < 5
    ensures Next(cfg, ShortRideAt(k), SHORT_RIDE[k]) == ShortRideAt(k + 1)
  {
  }

  lemma {:induction false} ShortRideRun(cfg: BT.Config, k: nat)
    requires k <= 5
    ensures Run(cfg, SHORT_RIDE[..k]) == ShortRideAt(k)
  {
    if k > 0 {
      ShortRideRun(cfg, k - 1);
      ShortRideStep(cfg, k - 1);
      assert SHORT_RIDE[..k][..k - 1] == SHORT_RIDE[..k - 1];
    }
  }

  /** With a commission of 20%, one such ride ends the billing of completed rides for every ride after it. */
  lemma ShortRideBlocksBilling(cfg: BT.Config, more: seq<Step>)
    requires cfg.commissionBps == 2000
    ensures var lane := LaneOf(Run(cfg, SHORT_RIDE + more), Completed);
      |lane.topic| > 0 && lane.topic[0] == Consumer.Payload(SHORT_FARE) && lane.progress.next == lane.progress.committed == 0
  {
    ShortRideRun(cfg, 5);
    assert SHORT_RIDE[..5] == SHORT_RIDE;
    SmallFareRefused(cfg);
    TopicKeptByRun(cfg, SHORT_RIDE, more, Completed, 0);
    RefusedChargeBlocks(cfg, SHORT_RIDE, more, Completed, 0);
  }

  lemma SmallFareRefused(cfg: BT.Config)
    requires cfg.commissionBps == 2000
    ensures RefusedEvent(cfg, SHORT_FARE)
  {
    Ledger.SmallFareIsRefused(1, 2);
  }
}
