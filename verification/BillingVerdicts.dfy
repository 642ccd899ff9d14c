// What each answer of the provider does to the books, and that the worker and the webhook take the very
// steps of the protocol that its theorems are about.
module BillingVerdicts {
  import opened Wrappers
  import opened Clock
  import opened BillingTables
  import opened BillingCommands
  import opened BillingInvariant
  import opened BillingSteps
  import opened BillingProtocol
  import BS = BillingService
  import Ledger
  import Int64

  /** An unresolved payment of invoice `i`, and a read of the invoice that the lock on it keeps current. */
  ghost predicate Finalizable(cfg: Config, db: Tables, p: nat, i: nat, outside: Tables) {
    && Good(cfg, db) && Unresolved(db, p) && db.payments[p].invoiceId == i
    && i < |outside.invoices| && Agrees(db, i, View(outside, i))
  }

  /** The payment is booked as accepted under `intent` and its invoice as paid; nothing else of either table changes. */
  predicate BookedAsPaid(db: Tables, db': Tables, p: nat, i: nat, intent: string, now: Millis) {
    && p < |db.payments| && i < |db.invoices|
    && db'.payments == db.payments[p := db.payments[p].(status := Succeeded, intentId := Some(intent))]
    && db'.invoices == db.invoices[i := db.invoices[i].(status := Paid, paidAt := Some(Rfc3339(now)), nextAttemptAt := None)]
    && |db'.ledger| == |db.ledger| + 1 && db'.ledger[|db.ledger|].kind.PaymentSucceeded?
    && |db'.outbox| == |db.outbox| + 1 && db'.outbox[|db.outbox|].PaymentCompleted?
  }

  /** The payment is booked as refused; its invoice is due again after `wait`, and no money moves. */
  predicate BookedAsRetry(db: Tables, db': Tables, p: nat, i: nat, code: string, at: Millis) {
    && p < |db.payments| && i < |db.invoices|
    && db' == db.(
         payments := db.payments[p := db.payments[p].(status := PaymentStatus.Failed, failureCode := Some(code))],
         invoices := db.invoices[i := db.invoices[i].(nextAttemptAt := Some(at))])
  }

  /** The payment is booked as refused for the last time, and its invoice is written off. */
  predicate BookedAsLost(db: Tables, db': Tables, p: nat, i: nat, code: string) {
    && p < |db.payments| && i < |db.invoices|
    && db'.payments == db.payments[p := db.payments[p].(status := PaymentStatus.Failed, failureCode := Some(code))]
    && db'.invoices == db.invoices[i := db.invoices[i].(status := Uncollectible, nextAttemptAt := None)]
    && |db'.ledger| == |db.ledger| + 1 && db'.ledger[|db.ledger|].kind.InvoiceUncollectible?
    && |db'.outbox| == |db.outbox| + 1 && db'.outbox[|db.outbox|].PaymentFailed? && db'.outbox[|db.outbox|].failureCode == code
  }

  // ---- The answers ---------------------------------------------------------------------------

  /** An accepted charge pays the invoice, unless another payment holds its intent id. */
  lemma {:induction false} AcceptedPays(
      cfg: Config, db: Tables, p: nat, i: nat, r: BS.ChargeResult, outside: Tables, now: Millis)
    requires Finalizable(cfg, db, p, i, outside) && r.status.ChargeSucceeded?
    ensures var t := BS.Applied(db, p, i, r, outside, now, cfg);
      && t == BS.Dispatched(db, p, r, outside, now, cfg)
      && if IntentTaken(db.payments, p, r.intent) then t.RolledBack?
         else t.Done? && BookedAsPaid(db, t.db, p, i, r.intent, now)
  {
    SucceedKeepsGood(cfg, db, p, i, r.intent, View(outside, i), now);
  }

  /** How long the schedule waits after attempt `n`: its `n`-th entry, or its last one from then on. */
  predicate WaitsFor(backoff: seq<Millis>, n: nat, wait: Millis) {
    if backoff == [] then wait == 60_000
    else if 1 <= n <= |backoff| then wait == backoff[n - 1]
    else n > |backoff| && wait == backoff[|backoff| - 1]
  }

  /** A refused charge, or one that asks for the client's action, is tried again until the budget is used up. */
  lemma {:induction false} RefusedRetries(
      cfg: Config, db: Tables, p: nat, i: nat, r: BS.ChargeResult, outside: Tables, now: Millis) returns (wait: Millis)
    requires Finalizable(cfg, db, p, i, outside) && (r.status.ChargeFailed? || r.status.ChargeRequiresAction?)
    ensures WaitsFor(cfg.backoff, AttemptCount(db.payments, i), wait)
    ensures var t := BS.Applied(db, p, i, r, outside, now, cfg);
      && t == BS.Dispatched(db, p, r, outside, now, cfg) && t.Done?
      && if AttemptCount(db.payments, i) < cfg.maxAttempts then BookedAsRetry(db, t.db, p, i, r.code, Rfc3339(now + wait))
         else BookedAsLost(db, t.db, p, i, r.code)
  {
    CountPositive(db.payments, i);
    FailKeepsGood(cfg, db, p, i, r.code, View(outside, i), now);
    wait := BackoffFor(AttemptCount(db.payments, i), cfg.backoff);
  }

  /** A pending answer marks a pending payment under a free intent id and clears the schedule; else the worker does nothing. */
  lemma {:induction false} PendingClears(cfg: Config, w: World, p: nat, r: BS.ChargeResult, outside: Tables, now: Millis)
    requires Sound(cfg, w) && p < |w.db.payments| && p !in w.finalizers && r.status.ChargeProcessing?
    requires w.db.payments[p].invoiceId < |w.db.invoices| && w.db.payments[p].invoiceId < |outside.invoices|
    ensures var i := w.db.payments[p].invoiceId; var t := BS.Applied(w.db, p, i, r, outside, now, cfg);
      && t.Done?
      && t.db == if w.db.payments[p].status.Pending? && !IntentTaken(w.db.payments, p, r.intent)
                 then Next(cfg, Next(cfg, w, MarkAsync(p, r.intent)), ClearSchedule(i)).db else w.db
  {
  }

  // ---- The answers as protocol steps ----------------------------------------------------------

  /** What a finalizing transaction carries when the provider has answered `r`. */
  predicate Carries(o: Outcome, r: BS.ChargeResult) {
    match r.status
    case ChargeSucceeded => o == Charged(r.intent)
    case ChargeProcessing => false
    case _ => o == Declined(r.code)
  }

  /** Whatever happened since the lock and the read, committing is what the handlers do with the tables as they are. */
  lemma {:induction false} HandlersCommit(
      cfg: Config, w: World, p: nat, r: BS.ChargeResult, outside: Tables, now: Millis)
    requires Sound(cfg, w) && Enabled(w, Commit(p, now)) && Carries(w.finalizers[p].outcome, r)
    requires var i := w.db.payments[p].invoiceId;
      i < |outside.invoices| && w.finalizers[p].seen == Some(View(outside, i))
    ensures var t := BS.Applied(w.db, p, w.db.payments[p].invoiceId, r, outside, now, cfg);
      && t == BS.Dispatched(w.db, p, r, outside, now, cfg)
      && Next(cfg, w, Commit(p, now)).db == if t.Done? then t.db else w.db
  {
  }

  /** So a handler that nobody interferes with is a lock, a read and a commit. */
  lemma {:induction false} HandlersAreSteps(cfg: Config, w: World, p: nat, r: BS.ChargeResult, o: Outcome, now: Millis)
    requires Sound(cfg, w) && Unresolved(w.db, p) && p !in w.finalizers && Carries(o, r)
    requires w.db.payments[p].invoiceId < |w.db.invoices|
    ensures var t := BS.Applied(w.db, p, w.db.payments[p].invoiceId, r, w.db, now, cfg);
      Next(cfg, Next(cfg, Next(cfg, w, Lock(p, o)), Read(p)), Commit(p, now)) ==
      w.(db := if t.Done? then t.db else w.db)
  {
    var i := w.db.payments[p].invoiceId;
    Prepares(cfg, w, p, o);
    HandlersCommit(cfg, Prepared(w, p, o, i), p, r, w.db, now);
    CommitEnds(cfg, Prepared(w, p, o, i), p, now);
    assert Prepared(w, p, o, i).finalizers - {p} == w.finalizers;
  }

  /** The transaction holds its lock and has read its invoice. */
  function Prepared(w: World, p: nat, o: Outcome, i: nat): World
    requires i < |w.db.invoices|
  {
    w.(finalizers := w.finalizers[p := Finalizer(o, Some(View(w.db, i)))])
  }

  lemma Prepares(cfg: Config, w: World, p: nat, o: Outcome)
    requires Sound(cfg, w) && Unresolved(w.db, p) && p !in w.finalizers && w.db.payments[p].invoiceId < |w.db.invoices|
    ensures Next(cfg, Next(cfg, w, Lock(p, o)), Read(p)) == Prepared(w, p, o, w.db.payments[p].invoiceId)
    ensures Sound(cfg, Prepared(w, p, o, w.db.payments[p].invoiceId))
  {
    NextSound(cfg, w, Lock(p, o));
    NextSound(cfg, Next(cfg, w, Lock(p, o)), Read(p));
  }

  lemma CommitEnds(cfg: Config, w: World, p: nat, now: Millis)
    requires Enabled(w, Commit(p, now))
    ensures Next(cfg, w, Commit(p, now)) == w.(db := Next(cfg, w, Commit(p, now)).db, finalizers := w.finalizers - {p})
  {
  }

  // ---- Creating an invoice -------------------------------------------------------------------

  /** An open invoice on the command's terms, due at once to the second. */
  predicate NewlyOpen(inv: Invoice, cmd: RideCharge, now: Millis) {
    && inv.rideId == cmd.rideId && inv.clientId == cmd.clientId && inv.driverId == cmd.driverId && inv.kind == cmd.kind
    && inv.amount == cmd.amount && inv.currency == cmd.currency
    && inv.status.Open? && inv.paidAt.None?
    && inv.nextAttemptAt.Some? && inv.nextAttemptAt.value <= now < inv.nextAttemptAt.value + 1000
  }

  /** The command's charge splits into amounts that the ledger takes. */
  predicate TakenByLedger(cfg: Config, cmd: RideCharge) {
    if cmd.kind.RideFare?
    then 10000 <= Int64.Wrap(cmd.amount * cfg.commissionBps) < 10000 * cmd.amount
    else cmd.amount > 0
  }

  /**
   * A repeated command succeeds and changes nothing; a first one opens an invoice on its terms and posts it
   * if the ledger takes the charge, and otherwise fails.
   */
  lemma {:induction false} CreatingOpensOnce(cfg: Config, db: Tables, cmd: RideCharge, now: Millis)
    requires Int64.InRange(cmd.amount) && (cmd.kind.RideFare? ==> cmd.driverId.Some?)
    ensures var r := CreateInvoice(db, cmd, now, cfg);
      if exists i :: 0 <= i < |db.invoices| && db.invoices[i].rideId == cmd.rideId && db.invoices[i].kind == cmd.kind
      then r == Done(db)
      else if TakenByLedger(cfg, cmd)
      then r.Done? && OpensInvoice(db, r.db, cmd, now)
      else r.RolledBack?
  {
    var legs := Ledger.T1Legs(cmd.kind, cmd.clientId, cmd.driverId, cmd.amount, cmd.currency, cfg.commissionBps);
    Ledger.T1StorableIff(cmd.kind, cmd.clientId, cmd.driverId, cmd.amount, cmd.currency, cfg.commissionBps);
    Ledger.T1AlwaysValidates(cmd.kind, cmd.clientId, cmd.driverId, cmd.amount, cmd.currency, cfg.commissionBps);
  }

  predicate OpensInvoice(db: Tables, db': Tables, cmd: RideCharge, now: Millis) {
    && |db'.invoices| == |db.invoices| + 1 && db'.invoices[..|db.invoices|] == db.invoices
    && NewlyOpen(db'.invoices[|db.invoices|], cmd, now)
    && |db'.ledger| == |db.ledger| + 1 && db'.ledger[..|db.ledger|] == db.ledger
    && db'.ledger[|db.ledger|].kind.InvoiceOpened? && db'.ledger[|db.ledger|].invoiceId == |db.invoices|
    && db'.payments == db.payments && db'.outbox == db.outbox
  }

  // ---- The stub ------------------------------------------------------------------------------

  /** The test cards of the stub: their prefix decides, whatever follows it, and every other method is accepted. */
  lemma StubDecides(rest: string, other: string, freshIntent: string)
    requires other == "" || other[0] != 'p'
    ensures BS.StubAnswer("pm_stub_decline" + rest, freshIntent) == BS.ChargeResult(BS.ChargeFailed, "", "card_declined")
    ensures BS.StubAnswer("pm_stub_insufficient" + rest, freshIntent) == BS.ChargeResult(BS.ChargeFailed, "", "insufficient_funds")
    ensures BS.StubAnswer("pm_card" + rest, freshIntent) == BS.ChargeResult(BS.ChargeSucceeded, freshIntent, "")
    ensures BS.StubAnswer(other, freshIntent) == BS.ChargeResult(BS.ChargeSucceeded, freshIntent, "")
  {
    var decline, insufficient, card := "pm_stub_decline" + rest, "pm_stub_insufficient" + rest, "pm_card" + rest;
    assert decline[..15] == "pm_stub_decline" && insufficient[..20] == "pm_stub_insufficient";
    assert insufficient[8] == 'i' && card[3] == 'c';
    assert BS.DECLINE_PREFIX[8] == 'd' && BS.DECLINE_PREFIX[3] == 's' && BS.INSUFFICIENT_PREFIX[3] == 's';
    assert BS.DECLINE_PREFIX[0] == 'p' && BS.INSUFFICIENT_PREFIX[0] == 'p';
  }
}
