// What a claim's lease is worth: while it runs nobody else is handed the payment, and afterwards it is
// resumed under its old key.
module BillingLeases {
  import opened Wrappers
  import opened Clock
  import opened BillingTables
  import opened BillingCommands
  import opened BillingInvariant
  import opened BillingSteps
  import opened BillingProtocol

  /** A payment with a method whose lease ends at `until`. */
  predicate LeasedUntil(db: Tables, p: nat, until: Millis) {
    p < |db.payments| && db.payments[p].methodId.Some? && db.payments[p].claimedUntil == Some(until)
  }

  lemma OnlyUnresolved(cfg: Config, db: Tables, p: nat)
    requires Good(cfg, db) && Unresolved(db, p)
    ensures UnresolvedAttempt(db.payments, db.payments[p].invoiceId) == Some(p)
  {
    var q := UnresolvedAttempt(db.payments, db.payments[p].invoiceId);
    if q.Some? && q.value != p {
      OthersFailed(db, p, q.value);
    }
  }

  // ---- One claim -----------------------------------------------------------------------------

  /** What a claim with a method hands out: an unresolved payment, leased until `lease`. */
  lemma ClaimTakesLease(db: Tables, d: Due, now: Millis, lease: Millis)
    requires d.invoiceId < |db.invoices|
    requires ClaimOne(db, d, now, lease).Claimed? && ClaimOne(db, d, now, lease).claim.Chargeable?
    ensures var r := ClaimOne(db, d, now, lease);
      && LeasedUntil(r.db, r.claim.paymentId, lease) && Unresolved(r.db, r.claim.paymentId)
      && r.db.payments[r.claim.paymentId].invoiceId == d.invoiceId == r.claim.invoiceId
      && r.db.payments[r.claim.paymentId].key == r.claim.key
  {
  }

  /** Before the lease ends the invoice is skipped, whoever sweeps it, and the tables stay as they are. */
  lemma {:induction false} LeaseKeepsOut(
      cfg: Config, db: Tables, d: Due, now: Millis, lease: Millis, d': Due, now': Millis, lease': Millis)
    requires Good(cfg, db) && d.invoiceId < |db.invoices| && d.attemptCount <= AttemptCount(db.payments, d.invoiceId)
    requires db.invoices[d.invoiceId].status.Open?
    requires ClaimOne(db, d, now, lease).Claimed? && ClaimOne(db, d, now, lease).claim.Chargeable?
    requires d'.invoiceId == d.invoiceId && now' < lease
    ensures var db' := ClaimOne(db, d, now, lease).db;
      d'.invoiceId < |db'.invoices| && ClaimOne(db', d', now', lease') == Skipped(db')
  {
    var r := ClaimOne(db, d, now, lease);
    ClaimOneKeepsGood(cfg, db, d, now, lease);
    ClaimTakesLease(db, d, now, lease);
    OnlyUnresolved(cfg, r.db, r.claim.paymentId);
  }

  /** From the moment it ends, the same payment is handed out again, under its old key and with a new lease. */
  lemma {:induction false} EndedLeaseResumes(cfg: Config, db: Tables, p: nat, until: Millis, d: Due, now: Millis, lease: Millis)
    requires Good(cfg, db) && Unresolved(db, p) && LeasedUntil(db, p, until)
    requires d.invoiceId == db.payments[p].invoiceId < |db.invoices| && now >= until
    requires d.look.methodFound && d.look.customerFound
    ensures var row := db.payments[p];
      ClaimOne(db, d, now, lease) ==
      Claimed(db.(payments := db.payments[p := row.(claimedUntil := Some(lease))]),
              Chargeable(p, d.invoiceId, row.key, row.methodId.value, row.amount, row.currency))
  {
    OnlyUnresolved(cfg, db, p);
  }

  /** A payment without a method is handed out to be failed at once. */
  lemma {:induction false} NoMethodFails(cfg: Config, db: Tables, p: nat, d: Due, now: Millis, lease: Millis)
    requires Good(cfg, db) && Unresolved(db, p) && db.payments[p].methodId.None?
    requires d.invoiceId == db.payments[p].invoiceId < |db.invoices|
    requires db.payments[p].claimedUntil.Some? ==> now >= db.payments[p].claimedUntil.value
    ensures ClaimOne(db, d, now, lease) ==
            Claimed(db.(payments := db.payments[p := db.payments[p].(claimedUntil := Some(lease))]), Immediate(p, d.invoiceId))
  {
    OnlyUnresolved(cfg, db, p);
  }

  /** A payment whose method or customer is gone is leased again but not handed out. */
  lemma {:induction false} MissingRowsSkip(cfg: Config, db: Tables, p: nat, d: Due, now: Millis, lease: Millis)
    requires Good(cfg, db) && Unresolved(db, p) && db.payments[p].methodId.Some?
    requires d.invoiceId == db.payments[p].invoiceId < |db.invoices| && (!d.look.methodFound || !d.look.customerFound)
    requires db.payments[p].claimedUntil.Some? ==> now >= db.payments[p].claimedUntil.value
    ensures ClaimOne(db, d, now, lease) ==
            Skipped(db.(payments := db.payments[p := db.payments[p].(claimedUntil := Some(lease))]))
  {
    OnlyUnresolved(cfg, db, p);
  }

  /** The next attempt: a fresh row with the invoice's terms and the next number, leased if it has a method. */
  predicate NextAttempt(db: Tables, i: nat, n: nat, method_: Option<Uuid>, lease: Millis, row: Payment) {
    && i < |db.invoices| && row.invoiceId == i && row.attemptNo == n && row.key == IdempotencyKey(i, n)
    && row.amount == db.invoices[i].amount && row.currency == db.invoices[i].currency
    && row.methodId == method_ && row.status.Pending? && row.intentId.None? && row.failureCode.None?
    && row.claimedUntil == if method_.Some? then Some(lease) else None
  }

  /**
   * With nothing under way and a current count the next attempt starts: handed out to be charged, to be failed
   * for want of a method, or kept back for want of a customer; a count that is too old aborts the batch.
   */
  lemma {:induction false} NextAttemptStarts(cfg: Config, db: Tables, d: Due, now: Millis, lease: Millis)
    requires Good(cfg, db) && d.invoiceId < |db.invoices| && d.attemptCount <= AttemptCount(db.payments, d.invoiceId)
    requires !HasUnresolved(db, d.invoiceId)
    ensures var r := ClaimOne(db, d, now, lease); var p := |db.payments|;
      if d.attemptCount < AttemptCount(db.payments, d.invoiceId) then r.Aborted?
      else
        && !r.Aborted? && |r.db.payments| == p + 1 && r.db == db.(payments := db.payments + [r.db.payments[p]])
        && NextAttempt(db, d.invoiceId, d.attemptCount + 1, d.look.defaultMethod, lease, r.db.payments[p])
        && (r.Skipped? <==> d.look.defaultMethod.Some? && !d.look.customerFound)
        && (r.Claimed? ==> r.claim.paymentId == p && (r.claim.Immediate? <==> d.look.defaultMethod.None?))
        && (r.Claimed? && r.claim.Chargeable? ==> r.claim == Chargeable(
              p, d.invoiceId, IdempotencyKey(d.invoiceId, d.attemptCount + 1), d.look.defaultMethod.value,
              db.invoices[d.invoiceId].amount, db.invoices[d.invoiceId].currency))
  {
    StaleCountIsCaught(cfg, db, d.invoiceId, d.attemptCount);
  }

  // ---- Batches -------------------------------------------------------------------------------

  predicate Hands(claims: seq<Claim>, p: nat) {
    exists k :: 0 <= k < |claims| && claims[k].paymentId == p
  }

  lemma ClaimLeavesLease(db: Tables, d: Due, now: Millis, lease: Millis, p: nat, until: Millis)
    requires d.invoiceId < |db.invoices| && LeasedUntil(db, p, until) && (now < until || lease == until)
    ensures var r := ClaimOne(db, d, now, lease);
      && (!r.Aborted? ==> LeasedUntil(r.db, p, until))
      && (r.Claimed? && now < until ==> r.claim.paymentId != p)
  {
  }

  /** A batch swept while the lease runs hands out other payments only. */
  lemma {:induction false} BatchLeavesLease(db: Tables, due: seq<Due>, now: Millis, lease: Millis, p: nat, until: Millis)
    requires ValidDue(db, due) && LeasedUntil(db, p, until) && now < until
    ensures var r := ClaimBatch(db, due, now, lease);
      r.Batch? ==> LeasedUntil(r.db, p, until) && !Hands(r.claims, p)
  {
    if due != [] {
      var n := |due| - 1;
      BatchLeavesLease(db, due[..n], now, lease, p, until);
      var before := ClaimBatch(db, due[..n], now, lease);
      if before.Batch? {
        ClaimLeavesLease(before.db, due[n], now, lease, p, until);
      }
    }
  }

  /** Whatever a batch hands out with a method is leased when the batch is done. */
  lemma {:induction false} BatchTakesLeases(db: Tables, due: seq<Due>, now: Millis, lease: Millis, c: Claim)
    requires ValidDue(db, due) && c.Chargeable?
    requires ClaimBatch(db, due, now, lease).Batch? && c in ClaimBatch(db, due, now, lease).claims
    ensures LeasedUntil(ClaimBatch(db, due, now, lease).db, c.paymentId, lease)
  {
    var n := |due| - 1;
    var before := ClaimBatch(db, due[..n], now, lease);
    var r := ClaimOne(before.db, due[n], now, lease);
    if c in before.claims {
      BatchTakesLeases(db, due[..n], now, lease, c);
      ClaimLeavesLease(before.db, due[n], now, lease, c.paymentId, lease);
    } else {
      ClaimTakesLease(before.db, due[n], now, lease);
    }
  }

  /** Invoice `i` has an attempt under way that is leased, or that only waits to be failed. */
  predicate Underway(db: Tables, i: nat, now: Millis, lease: Millis, p: nat) {
    && Unresolved(db, p) && db.payments[p].invoiceId == i
    && (db.payments[p].methodId.Some? ==>
          db.payments[p].claimedUntil.Some? &&
          (db.payments[p].claimedUntil.value > now || db.payments[p].claimedUntil.value == lease))
  }

  lemma ClaimLeavesUnderway(db: Tables, d: Due, now: Millis, lease: Millis) returns (p: nat)
    requires d.invoiceId < |db.invoices| && !ClaimOne(db, d, now, lease).Aborted?
    ensures Underway(ClaimOne(db, d, now, lease).db, d.invoiceId, now, lease, p)
  {
    var existing := UnresolvedAttempt(db.payments, d.invoiceId);
    p := if existing.Some? then existing.value else |db.payments|;
  }

  lemma ClaimKeepsUnderway(db: Tables, d: Due, now: Millis, lease: Millis, i: nat, p: nat)
    requires d.invoiceId < |db.invoices| && !ClaimOne(db, d, now, lease).Aborted? && Underway(db, i, now, lease, p)
    ensures Underway(ClaimOne(db, d, now, lease).db, i, now, lease, p)
  {
  }

  /** A batch leaves every invoice of its sweep with an attempt under way, whether or not it was handed out. */
  lemma {:induction false} SweptAreUnderway(db: Tables, due: seq<Due>, now: Millis, lease: Millis, k: nat) returns (p: nat)
    requires ValidDue(db, due) && k < |due| && ClaimBatch(db, due, now, lease).Batch?
    ensures Underway(ClaimBatch(db, due, now, lease).db, due[k].invoiceId, now, lease, p)
  {
    var n := |due| - 1;
    var before := ClaimBatch(db, due[..n], now, lease);
    if k == n {
      p := ClaimLeavesUnderway(before.db, due[n], now, lease);
    } else {
      p := SweptAreUnderway(db, due[..n], now, lease, k);
      ClaimKeepsUnderway(before.db, due[n], now, lease, due[k].invoiceId, p);
    }
  }

  // ---- Runs ----------------------------------------------------------------------------------

  /** The step is a sweep that hands out payment `p`. */
  predicate HandsOut(cfg: Config, w: World, s: Step, p: nat) {
    s.Sweep? && Enabled(w, s) &&
    match ClaimBatch(w.db, s.due, s.now, Lease(s.now, cfg))
    case BatchRolledBack => false
    case Batch(_, claims) => Hands(claims, p)
  }

  lemma StepLeavesLease(cfg: Config, w: World, s: Step, p: nat, until: Millis)
    requires LeasedUntil(w.db, p, until) && (s.Sweep? ==> s.now < until)
    ensures LeasedUntil(Next(cfg, w, s).db, p, until) && !HandsOut(cfg, w, s, p)
  {
    if s.Sweep? && Enabled(w, s) {
      BatchLeavesLease(w.db, s.due, s.now, Lease(s.now, cfg), p, until);
    } else if s.Commit? && Enabled(w, s) {
      CommitLeavesLease(cfg, w, s.p, s.now, p, until);
    }
  }

  lemma CommitLeavesLease(cfg: Config, w: World, q: nat, now: Millis, p: nat, until: Millis)
    requires LeasedUntil(w.db, p, until) && Enabled(w, Commit(q, now))
    ensures LeasedUntil(Next(cfg, w, Commit(q, now)).db, p, until)
  {
  }

  lemma {:induction false} RunLeavesLease(cfg: Config, w: World, steps: seq<Step>, p: nat, until: Millis)
    requires LeasedUntil(w.db, p, until) && forall k :: 0 <= k < |steps| && steps[k].Sweep? ==> steps[k].now < until
    ensures LeasedUntil(RunFrom(cfg, w, steps).db, p, until)
  {
    if steps != [] {
      var n := |steps| - 1;
      RunLeavesLease(cfg, w, steps[..n], p, until);
      StepLeavesLease(cfg, RunFrom(cfg, w, steps[..n]), steps[n], p, until);
    }
  }

  /**
   * In every run, from a sweep at `now` that hands out a payment with a method until the configured lease
   * is over, less the second that its timestamp may lose, no sweep hands that payment out again.
   */
  lemma {:induction false} OneClaimPerLease(cfg: Config, w: World, due: seq<Due>, now: Millis, c: Claim, steps: seq<Step>, k: nat)
    requires Enabled(w, Sweep(due, now)) && c.Chargeable?
    requires var r := ClaimBatch(w.db, due, now, Lease(now, cfg)); r.Batch? && c in r.claims
    requires k < |steps| && forall j :: 0 <= j <= k && steps[j].Sweep? ==> steps[j].now <= now + cfg.lease - 1000
    ensures !HandsOut(cfg, RunFrom(cfg, Next(cfg, w, Sweep(due, now)), steps[..k]), steps[k], c.paymentId)
  {
    var w' := Next(cfg, w, Sweep(due, now));
    BatchTakesLeases(w.db, due, now, Lease(now, cfg), c);
    assert now + cfg.lease - 1000 < Lease(now, cfg);
    RunLeavesLease(cfg, w', steps[..k], c.paymentId, Lease(now, cfg));
    StepLeavesLease(cfg, RunFrom(cfg, w', steps[..k]), steps[k], c.paymentId, Lease(now, cfg));
  }
}
