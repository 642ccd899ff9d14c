// The billing handlers as they run: statements inside a database transaction, one after the other.
// Each is proved against the function in BillingCommands that the protocol proofs are about.
module BillingService {
  import opened Wrappers
  import opened Clock
  import opened BillingTables
  import opened Ledger
  import opened BillingCommands
  import LedgerStore

  datatype Rows = Rows(invoices: seq<Invoice>, payments: seq<Payment>, outbox: seq<Event>)

  /** The database: the committed rows, and the rows as the open transaction sees them. */
  class Database {
    var work: Rows
    var committed: Rows
    const books: LedgerStore.Store
    var savedBooks: LedgerStore.BookRows
    ghost var savedLog: seq<LedgerTx>

    ghost predicate Valid()
      reads this, books
    {
      books.Valid() && LedgerStore.Represents(savedBooks, savedLog)
    }

    /** No transaction is open. */
    ghost predicate Idle()
      reads this, books
    {
      Valid() && work == committed && books.rows == savedBooks && books.log == savedLog
    }

    ghost function Work(): Tables
      reads this, books
    {
      Tables(work.invoices, work.payments, books.log, work.outbox)
    }

    ghost function Committed(): Tables
      reads this
    {
      Tables(committed.invoices, committed.payments, savedLog, committed.outbox)
    }

    constructor ()
      ensures Idle() && fresh(books) && Committed() == Tables([], [], [], [])
    {
      work := Rows([], [], []);
      committed := Rows([], [], []);
      books := new LedgerStore.Store();
      new;
      savedBooks := books.rows;
      savedLog := books.log;
    }

    // ---- Transactions ------------------------------------------------------------------------

    method Commit()
      requires Valid()
      modifies this
      ensures Idle() && Committed() == old(Work())
    {
      committed := work;
      savedBooks := books.rows;
      savedLog := books.log;
    }

    method Rollback()
      requires LedgerStore.Represents(savedBooks, savedLog)
      modifies this, books
      ensures Idle() && Committed() == old(Committed())
    {
      work := committed;
      books.rows := savedBooks;
      books.log := savedLog;
    }

    // ---- Statements --------------------------------------------------------------------------

    method InsertInvoice(inv: Invoice) returns (id: Option<nat>)
      modifies this`work
      ensures id == if HasInvoice(old(work).invoices, inv.rideId, inv.kind) then None else Some(|old(work).invoices|)
      ensures work == if id.None? then old(work) else old(work).(invoices := old(work).invoices + [inv])
    {
      if HasInvoice(work.invoices, inv.rideId, inv.kind) {
        return None;
      }
      id := Some(|work.invoices|);
      work := work.(invoices := work.invoices + [inv]);
    }

    method MarkFailed(p: nat, code: string) returns (won: bool)
      modifies this`work
      ensures won <==> p < |old(work).payments| && old(work).payments[p].NonTerminal()
      ensures work == if won then old(work).(payments := WithFailed(old(work).payments, p, code)) else old(work)
    {
      won := p < |work.payments| && work.payments[p].NonTerminal();
      if won {
        work := work.(payments := work.payments[p := work.payments[p].(status := PaymentStatus.Failed, failureCode := Some(code))]);
      }
    }

    /** `err` is the unique violation on the intent id. */
    method MarkSucceeded(p: nat, intent: string) returns (won: bool, err: bool)
      modifies this`work
      ensures var hit := p < |old(work).payments| && old(work).payments[p].NonTerminal();
              (err <==> hit && IntentTaken(old(work).payments, p, intent)) && (won <==> hit && !err)
      ensures work == if won then old(work).(payments := WithSucceeded(old(work).payments, p, intent)) else old(work)
    {
      won, err := p < |work.payments| && work.payments[p].NonTerminal(), false;
      if won && IntentTaken(work.payments, p, intent) {
        return false, true;
      }
      if won {
        work := work.(payments := work.payments[p := work.payments[p].(status := Succeeded, intentId := Some(intent))]);
      }
    }

    method MarkPaid(i: nat, paidAt: Millis) returns (won: bool)
      modifies this`work
      ensures won <==> i < |old(work).invoices| && old(work).invoices[i].status.Open?
      ensures work == if won then old(work).(invoices := old(work).invoices[i :=
                        old(work).invoices[i].(status := Paid, paidAt := Some(paidAt), nextAttemptAt := None)]) else old(work)
    {
      won := i < |work.invoices| && work.invoices[i].status.Open?;
      if won {
        var inv := work.invoices[i].(status := Paid, paidAt := Some(paidAt), nextAttemptAt := None);
        work := work.(invoices := work.invoices[i := inv]);
      }
    }

    method MarkUncollectible(i: nat) returns (won: bool)
      modifies this`work
      ensures won <==> i < |old(work).invoices| && old(work).invoices[i].status.Open?
      ensures work == if won then old(work).(invoices := old(work).invoices[i :=
                        old(work).invoices[i].(status := Uncollectible, nextAttemptAt := None)]) else old(work)
    {
      won := i < |work.invoices| && work.invoices[i].status.Open?;
      if won {
        var inv := work.invoices[i].(status := Uncollectible, nextAttemptAt := None);
        work := work.(invoices := work.invoices[i := inv]);
      }
    }

    method SetNextAttemptAt(i: nat, at: Option<Millis>)
      modifies this`work
      ensures work == if i < |old(work).invoices|
                      then old(work).(invoices := old(work).invoices[i := old(work).invoices[i].(nextAttemptAt := at)])
                      else old(work)
    {
      if i < |work.invoices| {
        work := work.(invoices := work.invoices[i := work.invoices[i].(nextAttemptAt := at)]);
      }
    }

    method InsertOutbox(e: Event)
      modifies this`work
      ensures work == old(work).(outbox := old(work).outbox + [e])
    {
      work := work.(outbox := work.outbox + [e]);
    }

    /** Inserts a payment row unless a unique constraint refuses it. */
    method CreatePayment(row: Payment) returns (id: Option<nat>)
      modifies this`work
      ensures id == if AttemptTaken(old(work).payments, row.invoiceId, row.attemptNo, row.key) then None
                    else Some(|old(work).payments|)
      ensures work == if id.None? then old(work) else old(work).(payments := old(work).payments + [row])
    {
      if AttemptTaken(work.payments, row.invoiceId, row.attemptNo, row.key) {
        return None;
      }
      id := Some(|work.payments|);
      work := work.(payments := work.payments + [row]);
    }

    method SetClaimedUntil(p: nat, until: Millis)
      requires p < |work.payments|
      modifies this`work
      ensures work == old(work).(payments := old(work).payments[p := old(work).payments[p].(claimedUntil := Some(until))])
    {
      work := work.(payments := work.payments[p := work.payments[p].(claimedUntil := Some(until))]);
    }
  }

  /** The committed tables after a handler, and whether it reported an error. */
  ghost predicate Outcome(r: TxResult, before: Tables, after: Tables, err: bool) {
    (err <==> r.RolledBack?) && after == if r.Done? then r.db else before
  }

  // ---- CreateInvoiceFromRide -----------------------------------------------------------------

  method CreateInvoiceFromRide(db: Database, cfg: Config, cmd: RideCharge, now: Millis) returns (err: bool)
    requires db.Idle() && (cmd.kind.RideFare? ==> cmd.driverId.Some?)
    modifies db, db.books
    ensures db.Idle()
    ensures Outcome(CreateInvoice(old(db.Committed()), cmd, now, cfg), old(db.Committed()), db.Committed(), err)
  {
    var inv := NewInvoice(cmd, now);
    var id := db.InsertInvoice(inv);
    if id.None? {
      // The unique violation aborts the transaction; the handler then reports success.
      db.Rollback();
      return false;
    }
    var legs := T1Legs(cmd.kind, cmd.clientId, cmd.driverId, cmd.amount, cmd.currency, cfg.commissionBps);
    var ok := db.books.PostTransaction(InvoiceOpened, id.value, cmd.currency, legs);
    if ok {
      db.Commit();
    } else {
      db.Rollback();
    }
    return !ok;
  }

  // ---- FinalizeChargeFailed and FinalizeChargeSucceeded --------------------------------------

  method Backoff(attemptNo: int, backoff: seq<Millis>) returns (d: Millis)
    ensures d == BackoffFor(attemptNo, backoff)
  {
    var idx := attemptNo - 1;
    if idx < 0 {
      idx := 0;
    }
    if idx >= |backoff| {
      idx := |backoff| - 1;
    }
    if idx < 0 {
      return MINUTE;
    }
    return backoff[idx];
  }

  /**
   * GetByID runs on a connection of its own, so it does not take part in the transaction: `outside` is
   * whatever the database had committed when that read was made.
   */
  method GetByID(outside: Tables, i: nat) returns (r: InvoiceView)
    requires i < |outside.invoices|
    ensures r == View(outside, i)
  {
    r := InvoiceView(outside.invoices[i], AttemptCount(outside.payments, i));
  }

  method FinalizeChargeFailed(db: Database, cfg: Config, p: nat, i: nat, code: string, outside: Tables, now: Millis)
    returns (err: bool)
    requires db.Idle() && i < |db.committed.invoices| && i < |outside.invoices|
    modifies db, db.books
    ensures db.Idle()
    ensures Outcome(FinalizeFailed(old(db.Committed()), p, i, code, View(outside, i), now, cfg),
                    old(db.Committed()), db.Committed(), err)
  {
    var won := db.MarkFailed(p, code);
    if !won {
      db.Commit();
      return false;
    }
    var seen := GetByID(outside, i);
    var inv, attempts := seen.invoice, seen.attemptCount;
    if !inv.status.Open? {
      db.Commit();
      return false;
    }
    if attempts < cfg.maxAttempts {
      var wait := Backoff(attempts, cfg.backoff);
      db.SetNextAttemptAt(i, Some(Rfc3339(now + wait)));
      db.Commit();
      return false;
    }
    db.SetNextAttemptAt(i, None);
    var closed := db.MarkUncollectible(i);
    if !closed {
      db.Commit();
      return false;
    }
    var ok := db.books.PostTransaction(InvoiceUncollectible, i, inv.currency, T3Legs(inv));
    if !ok {
      db.Rollback();
      return true;
    }
    db.InsertOutbox(PaymentFailed(inv.rideId, i, inv.clientId, inv.amount, inv.currency, code));
    db.Commit();
    return false;
  }

  method FinalizeChargeSucceeded(db: Database, cfg: Config, p: nat, i: nat, intent: string, outside: Tables, now: Millis)
    returns (err: bool)
    requires db.Idle() && i < |db.committed.invoices| && i < |outside.invoices|
    modifies db, db.books
    ensures db.Idle()
    ensures Outcome(FinalizeSucceeded(old(db.Committed()), p, i, intent, View(outside, i), now, cfg),
                    old(db.Committed()), db.Committed(), err)
  {
    var won, violated := db.MarkSucceeded(p, intent);
    if violated {
      db.Rollback();
      return true;
    }
    if !won {
      db.Commit();
      return false;
    }
    var seen := GetByID(outside, i);
    var inv := seen.invoice;
    var paid := db.MarkPaid(i, Rfc3339(now));
    if !paid {
      db.Commit();
      return false;
    }
    var ok := db.books.PostTransaction(TxKind.PaymentSucceeded, i, inv.currency, T2Legs(inv));
    if !ok {
      db.Rollback();
      return true;
    }
    var driver: Option<Uuid>, fee, payable := None, inv.amount, 0;
    if inv.kind.RideFare? && inv.driverId.Some? {
      driver := inv.driverId;
      fee := Fee(inv.amount, cfg.commissionBps);
      payable := Payable(inv.amount, cfg.commissionBps);
    }
    db.InsertOutbox(PaymentCompleted(inv.rideId, i, inv.clientId, driver, inv.amount, fee, payable, inv.currency));
    db.Commit();
    return false;
  }

  // ---- The charge worker's claim phase -------------------------------------------------------

  datatype OneResult = Ok(claim: Claim) | Skip | Error

  method BuildClaim(db: Database, d: Due, p: nat) returns (r: OneResult)
    requires p < |db.work.payments|
    ensures r == match ResumeClaim(db.Work(), d, p)
                 case Claimed(_, c) => Ok(c)
                 case _ => Skip
  {
    var row := db.work.payments[p];
    if row.methodId.None? {
      return Ok(Immediate(p, d.invoiceId));
    }
    if !d.look.methodFound || !d.look.customerFound {
      return Skip;
    }
    return Ok(Chargeable(p, d.invoiceId, row.key, row.methodId.value, row.amount, row.currency));
  }

  method ClaimInvoice(db: Database, d: Due, now: Millis, lease: Millis) returns (r: OneResult)
    requires db.Valid() && d.invoiceId < |db.work.invoices|
    modifies db`work
    ensures db.Valid() && db.work == old(db.work).(payments := db.work.payments)
    ensures match ClaimOne(old(db.Work()), d, now, lease)
            case Aborted => r.Error?
            case Skipped(t) => r.Skip? && db.Work() == t
            case Claimed(t, c) => r == Ok(c) && db.Work() == t
  {
    var existing := UnresolvedAttempt(db.work.payments, d.invoiceId);
    if existing.Some? {
      if LeaseActive(db.work.payments[existing.value].claimedUntil, now) {
        return Skip;
      }
      db.SetClaimedUntil(existing.value, lease);
      r := BuildClaim(db, d, existing.value);
      return;
    }
    var i, inv, attemptNo := d.invoiceId, db.work.invoices[d.invoiceId], d.attemptCount + 1;
    if d.look.defaultMethod.None? {
      var id := db.CreatePayment(NewPayment(inv, i, attemptNo, None, None));
      return if id.None? then Error else Ok(Immediate(id.value, i));
    }
    var row := NewPayment(inv, i, attemptNo, d.look.defaultMethod, Some(lease));
    var id := db.CreatePayment(row);
    if id.None? {
      return Error;
    }
    if !d.look.customerFound {
      return Skip;
    }
    return Ok(Chargeable(id.value, i, row.key, d.look.defaultMethod.value, row.amount, row.currency));
  }

  /** claimBatch over the rows of the sweep query: any error abandons the whole batch. */
  method ClaimDue(db: Database, cfg: Config, due: seq<Due>, now: Millis) returns (claims: seq<Claim>, err: bool)
    requires db.Idle() && ValidDue(db.Committed(), due)
    modifies db, db.books
    ensures db.Idle()
    ensures match ClaimBatch(old(db.Committed()), due, now, Lease(now, cfg))
            case BatchRolledBack => err && db.Committed() == old(db.Committed()) && claims == []
            case Batch(t, cs) => !err && db.Committed() == t && claims == cs
  {
    claims, err := [], false;
    var lease := Lease(now, cfg);
    ghost var start := db.Committed();
    var k := 0;
    while k < |due|
      invariant 0 <= k <= |due|
      invariant db.Valid() && db.Committed() == start && db.savedBooks == old(db.savedBooks)
      invariant ClaimBatch(start, due[..k], now, lease) == Batch(db.Work(), claims)
    {
      assert due[..k + 1][..k] == due[..k];
      var r := ClaimInvoice(db, due[k], now, lease);
      match r {
        case Error =>
          AbortSticks(start, due, k + 1, now, lease);
          db.Rollback();
          return [], true;
        case Skip =>
        case Ok(c) => claims := claims + [c];
      }
      k := k + 1;
    }
    assert due[..k] == due;
    db.Commit();
  }

  /** Once a batch is undone, the invoices after the failing one cannot revive it. */
  lemma {:induction false} AbortSticks(db: Tables, due: seq<Due>, k: nat, now: Millis, lease: Millis)
    requires ValidDue(db, due) && k <= |due| && ClaimBatch(db, due[..k], now, lease).BatchRolledBack?
    ensures ClaimBatch(db, due, now, lease).BatchRolledBack?
    decreases |due|
  {
    if k == |due| {
      assert due[..k] == due;
    } else {
      var n := |due| - 1;
      assert due[..n][..k] == due[..k];
      AbortSticks(db, due[..n], k, now, lease);
    }
  }

  // ---- The provider and the charge phase -----------------------------------------------------

  datatype ChargeStatus = ChargeSucceeded | ChargeProcessing | ChargeRequiresAction | ChargeFailed
  datatype ChargeResult = ChargeResult(status: ChargeStatus, intent: string, code: string)

  const DECLINE_PREFIX := "pm_stub_decline"
  const INSUFFICIENT_PREFIX := "pm_stub_insufficient"

  /** The stub's answer to a key it has not seen, from the payment method's provider id. */
  function StubAnswer(method_: string, freshIntent: string): ChargeResult {
    if DECLINE_PREFIX <= method_ then ChargeResult(ChargeFailed, "", "card_declined")
    else if INSUFFICIENT_PREFIX <= method_ then ChargeResult(ChargeFailed, "", "insufficient_funds")
    else ChargeResult(ChargeSucceeded, freshIntent, "")
  }

  class StubProvider {
    var cached: map<IdempotencyKey, ChargeResult>

    constructor ()
      ensures cached == map[]
    {
      cached := map[];
    }

    /** A key is decided once; a replay, whatever it carries, gets the first answer again. */
    method Charge(key: IdempotencyKey, method_: string, freshIntent: string) returns (r: ChargeResult)
      modifies this
      ensures key in cached && r == cached[key]
      ensures key in old(cached) ==> cached == old(cached)
      ensures key !in old(cached) ==> cached == old(cached)[key := StubAnswer(method_, freshIntent)]
    {
      if key in cached {
        return cached[key];
      }
      if DECLINE_PREFIX <= method_ {
        r := ChargeResult(ChargeFailed, "", "card_declined");
      } else if INSUFFICIENT_PREFIX <= method_ {
        r := ChargeResult(ChargeFailed, "", "insufficient_funds");
      } else {
        r := ChargeResult(ChargeSucceeded, freshIntent, "");
      }
      cached := cached[key := r];
    }
  }

  /** What a finished charge does to the tables: finalize, or mark the payment as pending. */
  function Applied(db: Tables, p: nat, i: nat, r: ChargeResult, outside: Tables, now: Millis, cfg: Config): TxResult
    requires i < |db.invoices| && i < |outside.invoices|
  {
    match r.status
    case ChargeSucceeded => FinalizeSucceeded(db, p, i, r.intent, View(outside, i), now, cfg)
    case ChargeProcessing =>
      // The worker clears the schedule only when its own guarded update won.
      var marked := MarkProcessing(db, p, r.intent);
      if marked.Done? && marked.db != db then Done(SetSchedule(marked.db, i, None)) else Done(db)
    case _ => FinalizeFailed(db, p, i, r.code, View(outside, i), now, cfg)
  }

  method MarkProcessingNow(db: Database, p: nat, intent: string) returns (won: bool, err: bool)
    requires db.Idle()
    modifies db
    ensures db.Idle()
    ensures Outcome(MarkProcessing(old(db.Committed()), p, intent), old(db.Committed()), db.Committed(), err)
    ensures won <==> p < |old(db.committed).payments| && old(db.committed).payments[p].status.Pending? && !err
  {
    won, err := p < |db.work.payments| && db.work.payments[p].status.Pending?, false;
    if won && IntentTaken(db.work.payments, p, intent) {
      return false, true;
    }
    if won {
      var row := db.work.payments[p].(status := Processing, intentId := Some(intent));
      db.work := db.work.(payments := db.work.payments[p := row]);
      db.Commit();
    }
  }

  /** resolve, once the provider has answered. */
  method Resolve(db: Database, cfg: Config, c: Claim, r: ChargeResult, outside: Tables, now: Millis)
    requires db.Idle() && c.invoiceId < |db.committed.invoices| && c.invoiceId < |outside.invoices|
    modifies db, db.books
    ensures db.Idle()
    ensures var t := Applied(old(db.Committed()), c.paymentId, c.invoiceId,
                             if c.Immediate? then ChargeResult(ChargeFailed, "", NO_METHOD) else r, outside, now, cfg);
            db.Committed() == if t.Done? then t.db else old(db.Committed())
  {
    if c.Immediate? {
      var _ := FinalizeChargeFailed(db, cfg, c.paymentId, c.invoiceId, NO_METHOD, outside, now);
      return;
    }
    match r.status {
      case ChargeSucceeded =>
        var _ := FinalizeChargeSucceeded(db, cfg, c.paymentId, c.invoiceId, r.intent, outside, now);
      case ChargeProcessing =>
        var won, err := MarkProcessingNow(db, c.paymentId, r.intent);
        if err || !won {
          return;
        }
        db.SetNextAttemptAt(c.invoiceId, None);
        db.Commit();
      case _ =>
        var _ := FinalizeChargeFailed(db, cfg, c.paymentId, c.invoiceId, r.code, outside, now);
    }
  }

  // ---- The webhook inbox ---------------------------------------------------------------------

  datatype ProviderEvent = ProviderEvent(id: string, result: ChargeResult)

  /** GetByProviderIntentID. */
  function FindByIntent(payments: seq<Payment>, intent: string): (r: Option<nat>)
    ensures r.Some? ==> r.value < |payments| && payments[r.value].intentId == Some(intent)
    ensures r.None? ==> forall q :: 0 <= q < |payments| ==> payments[q].intentId != Some(intent)
  {
    if payments == [] then None
    else if payments[|payments| - 1].intentId == Some(intent) then Some(|payments| - 1)
    else FindByIntent(payments[..|payments| - 1], intent)
  }

  /** The pspEvent table: each event id with whether its effect has been applied. */
  class Inbox {
    var processed: map<string, bool>

    constructor ()
      ensures processed == map[]
    {
      processed := map[];
    }

    /**
     * apply: a redelivery of a processed event changes nothing. Otherwise the effect is applied and the
     * event marked, unless the effect failed, or marking it did (not `recorded`): then the delivery is
     * answered with an error and the next one tries again.
     */
    method Apply(db: Database, cfg: Config, e: ProviderEvent, outside: Tables, now: Millis, recorded: bool)
      returns (err: bool)
      requires db.Idle()
      requires forall q :: 0 <= q < |db.committed.payments| ==>
                 db.committed.payments[q].invoiceId < |db.committed.invoices| &&
                 db.committed.payments[q].invoiceId < |outside.invoices|
      modifies this, db, db.books
      ensures db.Idle()
      ensures e.id in old(processed) && old(processed)[e.id] ==>
                !err && processed == old(processed) && db.Committed() == old(db.Committed())
      ensures !(e.id in old(processed) && old(processed)[e.id]) ==>
                && processed == old(processed)[e.id := !err]
                && match FindByIntent(old(db.committed).payments, e.result.intent)
                   case None => (err <==> !recorded) && db.Committed() == old(db.Committed())
                   case Some(p) =>
                     var t := Dispatched(old(db.Committed()), p, e.result, outside, now, cfg);
                     && (err <==> t.RolledBack? || !recorded)
                     && db.Committed() == if t.Done? then t.db else old(db.Committed())
    {
      if e.id !in processed {
        processed := processed[e.id := false];
      } else if processed[e.id] {
        return false;
      }
      err := Dispatch(db, cfg, e, outside, now);
      if err {
        return;
      }
      if !recorded {
        return true;
      }
      processed := processed[e.id := true];
    }
  }

  /** Applying an event again, after its effect was committed but not marked, changes nothing more. */
  lemma {:induction false} ReappliedIsSame(
      db: Tables, p: nat, r: ChargeResult, outside: Tables, now: Millis, outside': Tables, now': Millis, cfg: Config)
    requires p < |db.payments| && db.payments[p].invoiceId < |db.invoices|
    requires db.payments[p].invoiceId < |outside.invoices| && db.payments[p].invoiceId < |outside'.invoices|
    requires Dispatched(db, p, r, outside, now, cfg).Done?
    ensures var db' := Dispatched(db, p, r, outside, now, cfg).db;
      && p < |db'.payments| && db'.payments[p].invoiceId == db.payments[p].invoiceId < |db'.invoices|
      && Dispatched(db', p, r, outside', now', cfg) == Done(db')
  {
    var db' := Dispatched(db, p, r, outside, now, cfg).db;
    if r.status.ChargeProcessing? {
      assert SetSchedule(db', db.payments[p].invoiceId, None) == db';
    } else {
      FinalizedOnce(db, p, r, outside, now, cfg);
    }
  }

  /** A verdict that was committed leaves the payment resolved. */
  lemma FinalizedOnce(db: Tables, p: nat, r: ChargeResult, outside: Tables, now: Millis, cfg: Config)
    requires p < |db.payments| && db.payments[p].invoiceId < |db.invoices| && db.payments[p].invoiceId < |outside.invoices|
    requires !r.status.ChargeProcessing? && Dispatched(db, p, r, outside, now, cfg).Done?
    ensures var db' := Dispatched(db, p, r, outside, now, cfg).db;
      && !Unresolved(db', p) && |db'.payments| == |db.payments| && |db'.invoices| == |db.invoices|
      && db'.payments[p].invoiceId == db.payments[p].invoiceId
  {
  }

  /** Unlike the worker, the webhook clears the schedule whether or not its guarded update won. */
  function Dispatched(db: Tables, p: nat, r: ChargeResult, outside: Tables, now: Millis, cfg: Config): TxResult
    requires p < |db.payments| && db.payments[p].invoiceId < |db.invoices| && db.payments[p].invoiceId < |outside.invoices|
  {
    if r.status.ChargeProcessing? then
      var marked := MarkProcessing(db, p, r.intent);
      if marked.Done? then Done(SetSchedule(marked.db, db.payments[p].invoiceId, None)) else RolledBack
    else Applied(db, p, db.payments[p].invoiceId, r, outside, now, cfg)
  }

  method Dispatch(db: Database, cfg: Config, e: ProviderEvent, outside: Tables, now: Millis) returns (err: bool)
    requires db.Idle()
    requires forall q :: 0 <= q < |db.committed.payments| ==>
               db.committed.payments[q].invoiceId < |db.committed.invoices| &&
               db.committed.payments[q].invoiceId < |outside.invoices|
    modifies db, db.books
    ensures db.Idle()
    ensures match FindByIntent(old(db.committed).payments, e.result.intent)
            case None => !err && db.Committed() == old(db.Committed())
            case Some(p) =>
              Outcome(Dispatched(old(db.Committed()), p, e.result, outside, now, cfg), old(db.Committed()), db.Committed(), err)
  {
    var found := FindByIntent(db.committed.payments, e.result.intent);
    if found.None? {
      return false;
    }
    var p := found.value;
    var i := db.committed.payments[p].invoiceId;
    match e.result.status {
      case ChargeSucceeded =>
        err := FinalizeChargeSucceeded(db, cfg, p, i, e.result.intent, outside, now);
      case ChargeProcessing =>
        var _, failed := MarkProcessingNow(db, p, e.result.intent);
        if failed {
          return true;
        }
        db.SetNextAttemptAt(i, None);
        db.Commit();
        return false;
      case _ =>
        err := FinalizeChargeFailed(db, cfg, p, i, e.result.code, outside, now);
    }
  }
}
