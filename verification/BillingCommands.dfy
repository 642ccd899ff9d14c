// The effect of each billing transaction on the tables. Every function is the committed outcome of
// one handler; the methods in BillingService carry out the same transactions statement by statement.
module BillingCommands {
  import opened Wrappers
  import opened Clock
  import opened BillingTables
  import opened Ledger

  // ---- Invoice creation ----------------------------------------------------------------------

  datatype RideCharge = RideCharge(
    rideId: Uuid, clientId: Uuid, driverId: Option<Uuid>, kind: InvoiceType, amount: int, currency: Currency)

  function NewInvoice(cmd: RideCharge, now: Millis): Invoice {
    Invoice(cmd.rideId, cmd.clientId, cmd.driverId, cmd.kind, Open, cmd.amount, cmd.currency,
            Some(Rfc3339(now)), None)
  }

  /** CreateInvoiceFromRide: a duplicate (ride, type) is a successful no-op, a refused T1 rolls back. */
  function CreateInvoice(db: Tables, cmd: RideCharge, now: Millis, cfg: Config): TxResult
    requires cmd.kind.RideFare? ==> cmd.driverId.Some?
  {
    if HasInvoice(db.invoices, cmd.rideId, cmd.kind) then Done(db)
    else
      var legs := T1Legs(cmd.kind, cmd.clientId, cmd.driverId, cmd.amount, cmd.currency, cfg.commissionBps);
      match Post(db.ledger, InvoiceOpened, |db.invoices|, cmd.currency, legs)
      case None => RolledBack
      case Some(ledger) => Done(db.(invoices := db.invoices + [NewInvoice(cmd, now)], ledger := ledger))
  }

  // ---- Guarded payment updates ---------------------------------------------------------------

  /** Whether an UPDATE guarded by `status IN ('pending', 'processing')` matches row `p`. */
  predicate Unresolved(db: Tables, p: nat) {
    p < |db.payments| && db.payments[p].NonTerminal()
  }

  function WithFailed(payments: seq<Payment>, p: nat, code: string): seq<Payment>
    requires p < |payments|
  {
    payments[p := payments[p].(status := PaymentStatus.Failed, failureCode := Some(code))]
  }

  function WithSucceeded(payments: seq<Payment>, p: nat, intent: string): seq<Payment>
    requires p < |payments|
  {
    payments[p := payments[p].(status := Succeeded, intentId := Some(intent))]
  }

  /** MarkProcessing as a statement of its own: matches pending rows only. */
  function MarkProcessing(db: Tables, p: nat, intent: string): TxResult {
    if !(p < |db.payments| && db.payments[p].status.Pending?) then Done(db)
    else if IntentTaken(db.payments, p, intent) then RolledBack
    else Done(db.(payments := db.payments[p := db.payments[p].(status := Processing, intentId := Some(intent))]))
  }

  /** SetNextAttemptAt, which carries no status guard. */
  function SetSchedule(db: Tables, i: nat, at: Option<Millis>): Tables {
    if i < |db.invoices| then db.(invoices := db.invoices[i := db.invoices[i].(nextAttemptAt := at)]) else db
  }

  // ---- Finalizing a charge -------------------------------------------------------------------

  function BackoffFor(attemptNo: int, backoff: seq<Millis>): Millis {
    if backoff == [] then MINUTE
    else if attemptNo <= 1 then backoff[0]
    else if attemptNo - 1 >= |backoff| then backoff[|backoff| - 1]
    else backoff[attemptNo - 1]
  }

  /**
   * FinalizeChargeFailed. `seen` is what GetByID read outside the transaction: the retry decision and
   * the posted amounts come from it, while the guarded updates look at the tables themselves.
   */
  function FinalizeFailed(db: Tables, p: nat, i: nat, code: string, seen: InvoiceView, now: Millis, cfg: Config): TxResult
    requires i < |db.invoices|
  {
    if !Unresolved(db, p) then Done(db)
    else
      var inv := db.invoices[i];
      var db1 := db.(payments := WithFailed(db.payments, p, code));
      if !seen.invoice.status.Open? then Done(db1)
      else if seen.attemptCount < cfg.maxAttempts then
        Done(SetSchedule(db1, i, Some(Rfc3339(now + BackoffFor(seen.attemptCount, cfg.backoff)))))
      else if !inv.status.Open? then Done(SetSchedule(db1, i, None))
      else
        match Post(db.ledger, InvoiceUncollectible, i, seen.invoice.currency, T3Legs(seen.invoice))
        case None => RolledBack
        case Some(ledger) => Done(db1.(
          invoices := db.invoices[i := inv.(status := Uncollectible, nextAttemptAt := None)],
          ledger := ledger,
          outbox := db.outbox + [PaymentFailed(seen.invoice.rideId, i, seen.invoice.clientId,
                                               seen.invoice.amount, seen.invoice.currency, code)]))
  }

  function CompletedEvent(i: nat, inv: Invoice, bps: int): Event {
    if inv.kind.RideFare? && inv.driverId.Some? then
      PaymentCompleted(inv.rideId, i, inv.clientId, inv.driverId, inv.amount,
                       Fee(inv.amount, bps), Payable(inv.amount, bps), inv.currency)
    else
      PaymentCompleted(inv.rideId, i, inv.clientId, None, inv.amount, inv.amount, 0, inv.currency)
  }

  /** FinalizeChargeSucceeded. */
  function FinalizeSucceeded(db: Tables, p: nat, i: nat, intent: string, seen: InvoiceView, now: Millis, cfg: Config): TxResult
    requires i < |db.invoices|
  {
    if !Unresolved(db, p) then Done(db)
    else if IntentTaken(db.payments, p, intent) then RolledBack
    else
      var inv := db.invoices[i];
      var db1 := db.(payments := WithSucceeded(db.payments, p, intent));
      if !inv.status.Open? then Done(db1)
      else
        match Post(db.ledger, TxKind.PaymentSucceeded, i, seen.invoice.currency, T2Legs(seen.invoice))
        case None => RolledBack
        case Some(ledger) => Done(db1.(
          invoices := db.invoices[i := inv.(status := Paid, paidAt := Some(Rfc3339(now)), nextAttemptAt := None)],
          ledger := ledger,
          outbox := db.outbox + [CompletedEvent(i, seen.invoice, cfg.commissionBps)]))
  }

  // ---- Claiming ------------------------------------------------------------------------------

  /** The reads of payment_method and customer that a claim depends on. */
  datatype Lookup = Lookup(defaultMethod: Option<Uuid>, methodFound: bool, customerFound: bool)

  /** One row of GetDueForCharge: the invoice and the attempt count that its snapshot saw. */
  datatype Due = Due(invoiceId: nat, attemptCount: nat, look: Lookup)

  /** What the charge and finalize phases carry away from the claim. */
  datatype Claim =
    | Immediate(paymentId: nat, invoiceId: nat)
    | Chargeable(paymentId: nat, invoiceId: nat, key: IdempotencyKey, methodId: Uuid, amount: int, currency: Currency)

  const NO_METHOD := "no_payment_method"

  datatype ClaimResult = Claimed(db: Tables, claim: Claim) | Skipped(db: Tables) | Aborted

  predicate LeaseActive(until: Option<Millis>, now: Millis) {
    until.Some? && until.value > now
  }

  function Lease(now: Millis, cfg: Config): Millis {
    Rfc3339(now + cfg.lease)
  }

  /** buildClaim for the resumed row `p`. A missing method or customer skips this invoice only. */
  function ResumeClaim(db: Tables, d: Due, p: nat): ClaimResult
    requires p < |db.payments|
  {
    var row := db.payments[p];
    if row.methodId.None? then Claimed(db, Immediate(p, d.invoiceId))
    else if !d.look.methodFound || !d.look.customerFound then Skipped(db)
    else Claimed(db, Chargeable(p, d.invoiceId, row.key, row.methodId.value, row.amount, row.currency))
  }

  function NewPayment(inv: Invoice, i: nat, attemptNo: int, methodId: Option<Uuid>, until: Option<Millis>): Payment {
    Payment(i, attemptNo, methodId, inv.amount, inv.currency, Pending, IdempotencyKey(i, attemptNo), until, None, None)
  }

  /** claimOne: skip a leased attempt, resume an expired one under its old key, or start the next attempt. */
  function ClaimOne(db: Tables, d: Due, now: Millis, lease: Millis): ClaimResult
    requires d.invoiceId < |db.invoices|
  {
    var i, inv := d.invoiceId, db.invoices[d.invoiceId];
    match UnresolvedAttempt(db.payments, i)
    case Some(p) =>
      if LeaseActive(db.payments[p].claimedUntil, now) then Skipped(db)
      else ResumeClaim(db.(payments := db.payments[p := db.payments[p].(claimedUntil := Some(lease))]), d, p)
    case None =>
      var attemptNo, p := d.attemptCount + 1, |db.payments|;
      if AttemptTaken(db.payments, i, attemptNo, IdempotencyKey(i, attemptNo)) then Aborted
      else if d.look.defaultMethod.None? then
        Claimed(db.(payments := db.payments + [NewPayment(inv, i, attemptNo, None, None)]), Immediate(p, i))
      else
        var row := NewPayment(inv, i, attemptNo, d.look.defaultMethod, Some(lease));
        var db1 := db.(payments := db.payments + [row]);
        if !d.look.customerFound then Skipped(db1)
        else Claimed(db1, Chargeable(p, i, row.key, d.look.defaultMethod.value, row.amount, row.currency))
  }

  datatype BatchResult = Batch(db: Tables, claims: seq<Claim>) | BatchRolledBack

  predicate ValidDue(db: Tables, due: seq<Due>) {
    forall k :: 0 <= k < |due| ==> due[k].invoiceId < |db.invoices|
  }

  /** claimBatch: the invoices of one sweep in order; any error other than a missing row undoes the batch. */
  function ClaimBatch(db: Tables, due: seq<Due>, now: Millis, lease: Millis): (r: BatchResult)
    requires ValidDue(db, due)
    ensures r.Batch? ==> r.db == db.(payments := r.db.payments)
  {
    if due == [] then Batch(db, [])
    else
      match ClaimBatch(db, due[..|due| - 1], now, lease)
      case BatchRolledBack => BatchRolledBack
      case Batch(db1, claims) =>
        match ClaimOne(db1, due[|due| - 1], now, lease)
        case Aborted => BatchRolledBack
        case Skipped(db2) => Batch(db2, claims)
        case Claimed(db2, c) => Batch(db2, claims + [c])
  }
}
