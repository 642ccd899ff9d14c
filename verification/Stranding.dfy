// When an open invoice is left without a scheduled attempt, and when nothing can ever bring it back.
module Stranding {
  import opened Wrappers
  import opened Clock
  import opened BillingTables
  import opened BillingCommands
  import opened BillingInvariant
  import opened BillingSteps
  import opened BillingProtocol
  import BS = BillingService
  import Ledger

  /** An open invoice without a scheduled attempt. */
  predicate Stranded(db: Tables, i: nat) {
    i < |db.invoices| && db.invoices[i].status.Open? && db.invoices[i].nextAttemptAt.None?
  }

  /** The step commits the outcome of a payment of invoice `i`: only an intent id in use makes it fail. */
  predicate Resolving(w: World, s: Step, i: nat) {
    && s.Commit? && Enabled(w, s) && w.db.payments[s.p].invoiceId == i
    && (w.finalizers[s.p].outcome.Charged? ==> !IntentTaken(w.db.payments, s.p, w.finalizers[s.p].outcome.intent))
  }

  // ---- One step ------------------------------------------------------------------------------

  /** What a committed outcome does to the invoices: its own is closed or rescheduled, the others stay. */
  lemma {:induction false} CommitOutcome(cfg: Config, w: World, p: nat, now: Millis, i: nat)
    requires Sound(cfg, w) && Enabled(w, Commit(p, now)) && i < |w.db.invoices|
    ensures var db := Next(cfg, w, Commit(p, now)).db;
      && |db.invoices| == |w.db.invoices|
      && (if Resolving(w, Commit(p, now), i) then !Stranded(db, i) else db.invoices[i] == w.db.invoices[i])
  {
    var f := w.finalizers[p];
    assert FinalizerSound(w.db, p, f);
    if f.outcome.Declined? {
      FailKeepsGood(cfg, w.db, p, w.db.payments[p].invoiceId, f.outcome.code, f.seen.value, now);
    } else {
      SucceedKeepsGood(cfg, w.db, p, w.db.payments[p].invoiceId, f.outcome.intent, f.seen.value, now);
    }
  }

  /** A step that is neither a commit nor a clearing moves no invoice, and a new invoice is scheduled. */
  lemma {:induction false} OthersStrandNothing(cfg: Config, w: World, s: Step, i: nat)
    requires !s.Commit? && s != ClearSchedule(i)
    ensures Stranded(Next(cfg, w, s).db, i) <==> Stranded(w.db, i)
  {
  }

  /**
   * Exactly two kinds of step decide whether an invoice is stranded: clearing the schedule of the open
   * invoice strands it, and committing the outcome of one of its payments is the only way back.
   */
  lemma {:induction false} StepStrandsIff(cfg: Config, w: World, s: Step, i: nat)
    requires Sound(cfg, w)
    ensures Stranded(Next(cfg, w, s).db, i) <==>
            if Stranded(w.db, i) then !Resolving(w, s, i) else s == ClearSchedule(i) && HasStatus(w.db, i, Open)
  {
    if !s.Commit? && s != ClearSchedule(i) {
      OthersStrandNothing(cfg, w, s, i);
    } else if s.Commit? && Enabled(w, s) {
      if i < |w.db.invoices| {
        CommitOutcome(cfg, w, s.p, s.now, i);
      } else {
        CommitOutcome(cfg, w, s.p, s.now, w.db.payments[s.p].invoiceId);
      }
    }
  }

  // ---- Whole runs ----------------------------------------------------------------------------

  /** Step `k` of the run cleared the schedule while the invoice was open, and no payment of it was resolved since. */
  ghost predicate StrandedBy(cfg: Config, steps: seq<Step>, i: nat, k: nat) {
    && k < |steps| && steps[k] == ClearSchedule(i) && HasStatus(Run(cfg, steps[..k]).db, i, Open)
    && forall m :: k < m < |steps| ==> !Resolving(Run(cfg, steps[..m]), steps[m], i)
  }

  lemma PrefixStrandedBy(cfg: Config, steps: seq<Step>, i: nat, k: nat)
    requires steps != [] && k < |steps| - 1
    ensures StrandedBy(cfg, steps, i, k) <==>
            StrandedBy(cfg, steps[..|steps| - 1], i, k) && !Resolving(Run(cfg, steps[..|steps| - 1]), steps[|steps| - 1], i)
  {
    var init := steps[..|steps| - 1];
    forall m: nat | m <= |init| ensures init[..m] == steps[..m] {
    }
    assert forall m :: k < m < |init| ==> init[m] == steps[m];
  }

  /** The exact condition, for every run: an invoice is stranded when such a step is in the run, and only then. */
  lemma {:induction false} StrandedIff(cfg: Config, steps: seq<Step>, i: nat)
    ensures Stranded(Run(cfg, steps).db, i) <==> exists k: nat :: StrandedBy(cfg, steps, i, k)
  {
    if steps != [] {
      var n := |steps| - 1;
      StrandedIff(cfg, steps[..n], i);
      RunSound(cfg, steps[..n]);
      StepStrandsIff(cfg, Run(cfg, steps[..n]), steps[n], i);
      forall k: nat | k < n
        ensures StrandedBy(cfg, steps, i, k) <==>
                StrandedBy(cfg, steps[..n], i, k) && !Resolving(Run(cfg, steps[..n]), steps[n], i)
      {
        PrefixStrandedBy(cfg, steps, i, k);
      }
      LastStep(cfg, steps, i);
    }
  }

  /** The last step of a run strands an open invoice, whatever came before. */
  lemma LastStep(cfg: Config, steps: seq<Step>, i: nat)
    requires steps != []
    ensures StrandedBy(cfg, steps, i, |steps| - 1) <==>
            steps[|steps| - 1] == ClearSchedule(i) && HasStatus(Run(cfg, steps[..|steps| - 1]).db, i, Open)
  {
  }

  /** An open invoice whose own schedule nothing clears has an attempt scheduled in every reachable state. */
  lemma {:induction false} OpenMeansScheduled(cfg: Config, steps: seq<Step>, i: nat)
    requires forall k :: 0 <= k < |steps| ==> steps[k] != ClearSchedule(i)
    ensures HasStatus(Run(cfg, steps).db, i, Open) ==> Run(cfg, steps).db.invoices[i].nextAttemptAt.Some?
  {
    StrandedIff(cfg, steps, i);
  }

  /** No step of the run from `w` commits the outcome of a payment of invoice `i`. */
  predicate NoneResolves(cfg: Config, w: World, steps: seq<Step>, i: nat) {
    steps == [] ||
    var init := steps[..|steps| - 1];
    NoneResolves(cfg, w, init, i) && !Resolving(RunFrom(cfg, w, init), steps[|steps| - 1], i)
  }

  /** From any sound state on, the workers never see it due again until one of its payments is finalized. */
  lemma {:induction false} StrandedUntilResolved(cfg: Config, w: World, i: nat, steps: seq<Step>)
    requires Sound(cfg, w) && HasStatus(w.db, i, Open)
    requires NoneResolves(cfg, Next(cfg, w, ClearSchedule(i)), steps, i)
    ensures var db := RunFrom(cfg, Next(cfg, w, ClearSchedule(i)), steps).db;
      Stranded(db, i) && forall now :: !IsDue(db.invoices[i], now)
  {
    NextSound(cfg, w, ClearSchedule(i));
    StaysStranded(cfg, Next(cfg, w, ClearSchedule(i)), i, steps);
  }

  lemma {:induction false} StaysStranded(cfg: Config, w: World, i: nat, steps: seq<Step>)
    requires Sound(cfg, w) && Stranded(w.db, i) && NoneResolves(cfg, w, steps, i)
    ensures Stranded(RunFrom(cfg, w, steps).db, i)
  {
    if steps != [] {
      var n := |steps| - 1;
      StaysStranded(cfg, w, i, steps[..n]);
      RunFromSound(cfg, w, steps[..n]);
      StepStrandsIff(cfg, RunFrom(cfg, w, steps[..n]), steps[n], i);
    }
  }

  // ---- Stranded for good ---------------------------------------------------------------------

  /** Stranded, and no payment of the invoice is left to resolve. */
  ghost predicate Dead(db: Tables, i: nat) {
    Stranded(db, i) && !HasUnresolved(db, i)
  }

  /** A sweep does not touch the payments of an invoice that is not due. */
  lemma {:induction false} SweepLeavesDead(cfg: Config, w: World, due: seq<Due>, now: Millis, i: nat)
    requires Sound(cfg, w) && Dead(w.db, i) && Enabled(w, Sweep(due, now))
    ensures Dead(Next(cfg, w, Sweep(due, now)).db, i)
  {
    SweepKeepsGood(cfg, w.db, due, now, Lease(now, cfg));
    var r := ClaimBatch(w.db, due, now, Lease(now, cfg));
    if r.Batch? {
      assert !Covers(due, i);
      NoNewRows(w.db, r.db, i);
    }
  }

  /** Where rows are only appended, an unchanged count means unchanged rows. */
  lemma NoNewRows(db: Tables, db': Tables, i: nat)
    requires RowsKept(db, db') && AttemptCount(db'.payments, i) == AttemptCount(db.payments, i)
    ensures forall q :: |db.payments| <= q < |db'.payments| ==> db'.payments[q].invoiceId != i
  {
    var n, all := |db.payments|, Owners(db'.payments);
    assert all[..n] == Owners(db.payments);
    assert all == all[..n] + all[n..];
    forall q | n <= q < |db'.payments| ensures db'.payments[q].invoiceId != i {
      assert all[n..][q - n] == db'.payments[q].invoiceId;
    }
  }

  lemma {:induction false} StepLeavesDead(cfg: Config, w: World, s: Step, i: nat)
    requires Sound(cfg, w) && Dead(w.db, i)
    ensures Dead(Next(cfg, w, s).db, i)
  {
    if Enabled(w, s) {
      if s.Sweep? {
        SweepLeavesDead(cfg, w, s.due, s.now, i);
      } else if s.Commit? {
        assert FinalizerSound(w.db, s.p, w.finalizers[s.p]);
        CommitOutcome(cfg, w, s.p, s.now, i);
        CommitLeavesRows(cfg, w, s.p, s.now, i);
      } else if s.MarkAsync? {
        MarkLeavesRows(w, s.p, s.intent, i);
      }
    }
  }

  lemma CommitLeavesRows(cfg: Config, w: World, p: nat, now: Millis, i: nat)
    requires Sound(cfg, w) && Enabled(w, Commit(p, now)) && !HasUnresolved(w.db, i)
    ensures !HasUnresolved(Next(cfg, w, Commit(p, now)).db, i)
  {
    var db' := Next(cfg, w, Commit(p, now)).db;
    assert FinalizerSound(w.db, p, w.finalizers[p]);
    assert |db'.payments| == |w.db.payments| && db'.payments == w.db.payments[p := db'.payments[p]];
    assert db'.payments[p].invoiceId == w.db.payments[p].invoiceId != i;
  }

  lemma MarkLeavesRows(w: World, p: nat, intent: string, i: nat)
    requires !HasUnresolved(w.db, i)
    ensures !HasUnresolved(Settle(w, MarkProcessing(w.db, p, intent)).db, i)
  {
    var db' := Settle(w, MarkProcessing(w.db, p, intent)).db;
    if db' != w.db {
      assert db'.payments == w.db.payments[p := db'.payments[p]];
      assert w.db.payments[p].NonTerminal();
    }
  }

  lemma {:induction false} RunLeavesDead(cfg: Config, w: World, steps: seq<Step>, i: nat)
    requires Sound(cfg, w) && Dead(w.db, i)
    ensures Dead(RunFrom(cfg, w, steps).db, i)
  {
    if steps != [] {
      var n := |steps| - 1;
      RunLeavesDead(cfg, w, steps[..n], i);
      RunFromSound(cfg, w, steps[..n]);
      StepLeavesDead(cfg, RunFrom(cfg, w, steps[..n]), steps[n], i);
    }
  }

  /** The way back, while a payment is unresolved: finalize it, whoever holds it now giving up first. */
  function WayBack(p: nat): seq<Step> {
    [Rollback(p), Lock(p, Declined("")), Read(p), Commit(p, 0)]
  }

  lemma {:induction false} FourSteps(cfg: Config, w: World, a: Step, b: Step, c: Step, d: Step)
    ensures RunFrom(cfg, w, [a, b, c, d]) == Next(cfg, Next(cfg, Next(cfg, Next(cfg, w, a), b), c), d)
  {
    var steps := [a, b, c, d];
    assert steps[..1][..0] == [] && steps[..2][..1] == steps[..1] && steps[..3][..2] == steps[..2];
    assert RunFrom(cfg, w, steps[..1]) == Next(cfg, w, a);
    assert RunFrom(cfg, w, steps[..2]) == Next(cfg, Next(cfg, w, a), b);
    assert RunFrom(cfg, w, steps[..3]) == Next(cfg, Next(cfg, Next(cfg, w, a), b), c);
  }

  lemma {:induction false} WayBackWorks(cfg: Config, w: World, p: nat)
    requires Sound(cfg, w) && Unresolved(w.db, p)
    ensures !Stranded(RunFrom(cfg, w, WayBack(p)).db, w.db.payments[p].invoiceId)
  {
    var i := w.db.payments[p].invoiceId;
    FourSteps(cfg, w, Rollback(p), Lock(p, Declined("")), Read(p), Commit(p, 0));
    assert StatusAgrees(w.db, p);
    var w1 := Next(cfg, w, Rollback(p));
    assert w1.db == w.db && p !in w1.finalizers;
    var w2 := Next(cfg, w1, Lock(p, Declined("")));
    var w3 := Next(cfg, w2, Read(p));
    assert w3.db == w.db && w3.finalizers[p] == Finalizer(Declined(""), Some(View(w.db, i)));
    NextSound(cfg, w, Rollback(p));
    NextSound(cfg, w1, Lock(p, Declined("")));
    NextSound(cfg, w2, Read(p));
    CommitOutcome(cfg, w3, p, 0, i);
  }

  /**
   * Clearing the schedule of an open invoice strands it for good, whatever all workers and webhooks do
   * afterwards, exactly when no payment of it is unresolved at that moment.
   */
  lemma {:induction false} StrandedForGoodIff(cfg: Config, w: World, i: nat)
    requires Sound(cfg, w) && HasStatus(w.db, i, Open)
    ensures (forall steps :: Stranded(RunFrom(cfg, Next(cfg, w, ClearSchedule(i)), steps).db, i)) <==> !HasUnresolved(w.db, i)
  {
    var w' := Next(cfg, w, ClearSchedule(i));
    NextSound(cfg, w, ClearSchedule(i));
    if HasUnresolved(w.db, i) {
      var p :| 0 <= p < |w.db.payments| && w.db.payments[p].invoiceId == i && w.db.payments[p].NonTerminal();
      WayBackWorks(cfg, w', p);
      assert !Stranded(RunFrom(cfg, w', WayBack(p)).db, i);
    } else {
      forall steps ensures Stranded(RunFrom(cfg, w', steps).db, i) {
        RunLeavesDead(cfg, w', steps, i);
      }
    }
  }

  // ---- Where the clearing comes from -----------------------------------------------------------

  /** The webhook's two statements on a processing event, as steps: the second runs whether or not the first matched. */
  lemma {:induction false} ProcessingEventClears(
      cfg: Config, w: World, p: nat, r: BS.ChargeResult, outside: Tables, now: Millis)
    requires Sound(cfg, w) && p < |w.db.payments| && p !in w.finalizers && r.status.ChargeProcessing?
    requires w.db.payments[p].invoiceId < |w.db.invoices| && w.db.payments[p].invoiceId < |outside.invoices|
    ensures var t := BS.Dispatched(w.db, p, r, outside, now, cfg);
      var marked := Next(cfg, w, MarkAsync(p, r.intent));
      if t.Done? then t.db == Next(cfg, marked, ClearSchedule(w.db.payments[p].invoiceId)).db else marked == w
  {
  }

  /** A webhook that reports "processing" for a payment that has failed already strands its open invoice for good. */
  lemma {:induction false} LateProcessingStrands(
      cfg: Config, w: World, p: nat, r: BS.ChargeResult, outside: Tables, now: Millis, steps: seq<Step>)
    requires Sound(cfg, w) && r.status.ChargeProcessing?
    requires p < |w.db.payments| && w.db.payments[p].status.Failed? && w.db.payments[p].invoiceId < |outside.invoices|
    requires HasStatus(w.db, w.db.payments[p].invoiceId, Open) && !HasUnresolved(w.db, w.db.payments[p].invoiceId)
    ensures var t := BS.Dispatched(w.db, p, r, outside, now, cfg);
      t.Done? && Stranded(RunFrom(cfg, w.(db := t.db), steps).db, w.db.payments[p].invoiceId)
  {
    var i := w.db.payments[p].invoiceId;
    assert p in w.finalizers ==> FinalizerSound(w.db, p, w.finalizers[p]);
    ProcessingEventClears(cfg, w, p, r, outside, now);
    StrandedForGoodIff(cfg, w, i);
    assert w.(db := BS.Dispatched(w.db, p, r, outside, now, cfg).db) == Next(cfg, w, ClearSchedule(i));
  }

  // ---- A run that ends up there ---------------------------------------------------------------

  const CFG := Config(2000, 5, [MINUTE], 30 * SECOND)
  const FARE := RideCharge(7, 1, Some(2), RideFare, 1000, "EUR")
  const CARD := Lookup(Some(9), true, true)
  const INTENT := "pi_1"

  /** A ride's charge is answered with "processing"; then the failure arrives, and a retry is scheduled. */
  const DECLINED_LATER: seq<Step> := [
    Create(FARE, 0), Sweep([Due(0, 0, CARD)], 0), MarkAsync(0, INTENT), ClearSchedule(0),
    Lock(0, Declined("card_declined")), Read(0), Commit(0, SECOND)]

  /** The tables when the invoice is scheduled for `at` and its payment, if any, is `row`. */
  function FareTables(at: Option<Millis>, rows: seq<Payment>): Tables {
    Tables([NewInvoice(FARE, 0).(nextAttemptAt := at)], rows,
           [LedgerTx(InvoiceOpened, 0, "EUR", Ledger.T1Legs(RideFare, 1, Some(2), 1000, "EUR", 2000))], [])
  }

  function FareRow(status: PaymentStatus): Payment {
    Payment(0, 1, Some(9), 1000, "EUR", status, IdempotencyKey(0, 1), Some(30 * SECOND),
            if status.Pending? then None else Some(INTENT), if status.Failed? then Some("card_declined") else None)
  }

  function DeclinedLaterAt(k: nat): World {
    var claims := {Chargeable(0, 0, IdempotencyKey(0, 1), 9, 1000, "EUR")};
    var asked := FareTables(None, [FareRow(Processing)]);
    match k
    case 0 => Init()
    case 1 => World(FareTables(Some(0), []), {}, map[])
    case 2 => World(FareTables(Some(0), [FareRow(Pending)]), claims, map[])
    case 3 => World(FareTables(Some(0), [FareRow(Processing)]), claims, map[])
    case 4 => World(asked, claims, map[])
    case 5 => World(asked, claims, map[0 := Finalizer(Declined("card_declined"), None)])
    case 6 => World(asked, claims, map[0 := Finalizer(Declined("card_declined"), Some(View(asked, 0)))])
    case _ => World(FareTables(Some(SECOND + MINUTE), [FareRow(Failed)]), claims, map[])
  }

  lemma FareIsInvoiced()
    ensures CreateInvoice(Init().db, FARE, 0, CFG) == Done(FareTables(Some(0), []))
  {
    Ledger.T1StorableIff(RideFare, 1, Some(2), 1000, "EUR", 2000);
    Ledger.T1AlwaysValidates(RideFare, 1, Some(2), 1000, "EUR", 2000);
  }

  lemma FareIsClaimed()
    ensures Next(CFG, DeclinedLaterAt(1), DECLINED_LATER[1]) == DeclinedLaterAt(2)
  {
    var db, due, c := FareTables(Some(0), []), [Due(0, 0, CARD)], Chargeable(0, 0, IdempotencyKey(0, 1), 9, 1000, "EUR");
    assert due[..0] == [] && SweepRows(db, due, 0);
    assert AttemptCount([], 0) == 0 && UnresolvedAttempt([], 0) == None;
    assert ClaimOne(db, due[0], 0, Lease(0, CFG)) ==
           Claimed(FareTables(Some(0), [FareRow(Pending)]), c);
    assert ClaimBatch(db, due, 0, Lease(0, CFG)) == Batch(FareTables(Some(0), [FareRow(Pending)]), [c]);
    assert {} + (set x | x in [c]) == {c};
  }

  lemma FareIsDeclined()
    ensures Next(CFG, DeclinedLaterAt(6), DECLINED_LATER[6]) == DeclinedLaterAt(7)
  {
    var db := FareTables(None, [FareRow(Processing)]);
    CountOne(FareRow(Processing));
    assert View(db, 0).attemptCount == 1;
    assert FinalizeFailed(db, 0, 0, "card_declined", View(db, 0), SECOND, CFG) ==
           Done(FareTables(Some(SECOND + MINUTE), [FareRow(Failed)]));
  }

  lemma CountOne(row: Payment)
    ensures AttemptCount([row], row.invoiceId) == 1
  {
    OwnersAppended([], row);
    assert [] + [row] == [row];
  }

  lemma DeclinedLaterStep(k: nat)
    requires k < 7
    ensures Next(CFG, DeclinedLaterAt(k), DECLINED_LATER[k]) == DeclinedLaterAt(k + 1)
  {
    if k == 0 {
      FareIsInvoiced();
    } else if k == 1 {
      FareIsClaimed();
    } else if k == 6 {
      FareIsDeclined();
    } else {
      assert 2 <= k <= 5;
    }
  }

  lemma {:induction false} DeclinedLaterRun(k: nat)
    requires k <= 7
    ensures Run(CFG, DECLINED_LATER[..k]) == DeclinedLaterAt(k)
  {
    if k > 0 {
      DeclinedLaterRun(k - 1);
      DeclinedLaterStep(k - 1);
      assert DECLINED_LATER[..k][..k - 1] == DECLINED_LATER[..k - 1];
    }
  }

  /** Such a state is reached, and there the webhook finds the payment: a late "processing" ends its collection. */
  lemma {:induction false} LateProcessingHappens(now: Millis, steps: seq<Step>)
    ensures var w := Run(CFG, DECLINED_LATER); var late := BS.ChargeResult(BS.ChargeProcessing, INTENT, "");
      && w == DeclinedLaterAt(7) && !Stranded(w.db, 0) && BS.FindByIntent(w.db.payments, INTENT) == Some(0)
      && BS.Dispatched(w.db, 0, late, w.db, now, CFG).Done?
      && Stranded(RunFrom(CFG, w.(db := BS.Dispatched(w.db, 0, late, w.db, now, CFG).db), steps).db, 0)
  {
    DeclinedLaterRun(7);
    assert DECLINED_LATER[..7] == DECLINED_LATER;
    RunSound(CFG, DECLINED_LATER);
    var w := DeclinedLaterAt(7);
    LateProcessingStrands(CFG, w, 0, BS.ChargeResult(BS.ChargeProcessing, INTENT, ""), w.db, now, steps);
  }
}
