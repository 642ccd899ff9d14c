// The rows of the billing schema and the queries that the repositories run over them.
// A row's id is its position in its table: the tables only grow, so positions are never reused.
module BillingTables {
  import opened Wrappers
  import opened Clock

  type Uuid = nat
  type Currency = string

  datatype InvoiceType = RideFare | CancellationFee
  datatype InvoiceStatus = Open | Paid | Uncollectible | Void

  datatype Invoice = Invoice(
    rideId: Uuid, clientId: Uuid, driverId: Option<Uuid>, kind: InvoiceType, status: InvoiceStatus,
    amount: int, currency: Currency, nextAttemptAt: Option<Millis>, paidAt: Option<Millis>)

  datatype PaymentStatus = Pending | Processing | Succeeded | Failed

  /** The key `invoice:{id}:attempt:{n}`. */
  datatype IdempotencyKey = IdempotencyKey(invoiceId: nat, attemptNo: int)

  datatype Payment = Payment(
    invoiceId: nat, attemptNo: int, methodId: Option<Uuid>, amount: int, currency: Currency,
    status: PaymentStatus, key: IdempotencyKey, claimedUntil: Option<Millis>,
    intentId: Option<string>, failureCode: Option<string>)
  {
    /** The rows that the guarded updates still match. */
    predicate NonTerminal() {
      status.Pending? || status.Processing?
    }
  }

  datatype AccountType = ClientReceivable | DriverPayable | PlatformRevenue | PspClearing | PspFees | BadDebt
  datatype Direction = Debit | Credit
  datatype Leg = Leg(account: AccountType, owner: Option<Uuid>, currency: Currency, direction: Direction, amount: int)
  datatype TxKind = InvoiceOpened | PaymentSucceeded | InvoiceUncollectible
  datatype LedgerTx = LedgerTx(kind: TxKind, invoiceId: nat, currency: Currency, legs: seq<Leg>)

  datatype Event =
    | PaymentCompleted(rideId: Uuid, invoiceId: nat, clientId: Uuid, driverId: Option<Uuid>,
                       amount: int, platformFee: int, driverPayable: int, currency: Currency)
    | PaymentFailed(rideId: Uuid, invoiceId: nat, clientId: Uuid,
                    amount: int, currency: Currency, failureCode: string)

  datatype Tables = Tables(
    invoices: seq<Invoice>, payments: seq<Payment>, ledger: seq<LedgerTx>, outbox: seq<Event>)

  /** What `GetByID` returns for an invoice: the row and the derived attempt count. */
  datatype InvoiceView = InvoiceView(invoice: Invoice, attemptCount: nat)

  datatype Config = Config(commissionBps: int, maxAttempts: int, backoff: seq<Millis>, lease: Millis)

  /** A transaction either commits these tables or leaves the old ones in place. */
  datatype TxResult = Done(db: Tables) | RolledBack

  // ---- Queries -------------------------------------------------------------------------------

  /** The invoice_id column of the payment table. */
  function Owners(payments: seq<Payment>): (s: seq<nat>)
    ensures |s| == |payments|
  {
    seq(|payments|, i requires 0 <= i < |payments| => payments[i].invoiceId)
  }

  /** `SELECT COUNT(*) FROM billing.payment WHERE invoice_id = i`. */
  function AttemptCount(payments: seq<Payment>, i: nat): nat {
    multiset(Owners(payments))[i]
  }

  function View(db: Tables, i: nat): InvoiceView
    requires i < |db.invoices|
  {
    InvoiceView(db.invoices[i], AttemptCount(db.payments, i))
  }

  /** `UNIQUE (ride_id, type)`: whether an invoice of this kind exists for the ride. */
  predicate HasInvoice(invoices: seq<Invoice>, ride: Uuid, kind: InvoiceType) {
    exists i :: 0 <= i < |invoices| && invoices[i].rideId == ride && invoices[i].kind == kind
  }

  /** The partial unique index on provider_payment_intent_id, seen from row `p`. */
  predicate IntentTaken(payments: seq<Payment>, p: nat, intent: string) {
    exists q :: 0 <= q < |payments| && q != p && payments[q].intentId == Some(intent)
  }

  /** The unique constraints on (invoice_id, attempt_no) and on idempotency_key. */
  predicate AttemptTaken(payments: seq<Payment>, i: nat, attemptNo: int, key: IdempotencyKey) {
    exists q :: 0 <= q < |payments| &&
      ((payments[q].invoiceId == i && payments[q].attemptNo == attemptNo) || payments[q].key == key)
  }

  /** GetNonTerminalByInvoiceID: the unresolved attempt of invoice `i` with the highest attempt number. */
  function UnresolvedAttempt(payments: seq<Payment>, i: nat): (r: Option<nat>)
    ensures r.Some? ==> r.value < |payments| && payments[r.value].invoiceId == i && payments[r.value].NonTerminal()
    ensures r.Some? ==> forall q | 0 <= q < |payments| && payments[q].invoiceId == i && payments[q].NonTerminal() ::
                          payments[q].attemptNo <= payments[r.value].attemptNo
    ensures r.None? ==> forall q :: 0 <= q < |payments| && payments[q].invoiceId == i ==> !payments[q].NonTerminal()
  {
    if payments == [] then None
    else
      var last := |payments| - 1;
      var earlier := UnresolvedAttempt(payments[..last], i);
      if payments[last].invoiceId == i && payments[last].NonTerminal() &&
         (earlier.None? || payments[earlier.value].attemptNo <= payments[last].attemptNo)
      then Some(last)
      else earlier
  }

  // ---- Facts about the columns ---------------------------------------------------------------

  lemma OwnersUpdated(payments: seq<Payment>, p: nat, row: Payment)
    requires p < |payments| && row.invoiceId == payments[p].invoiceId
    ensures Owners(payments[p := row]) == Owners(payments)
  {
  }

  lemma OwnersAppended(payments: seq<Payment>, row: Payment)
    ensures Owners(payments + [row]) == Owners(payments) + [row.invoiceId]
    ensures forall i :: AttemptCount(payments + [row], i) ==
                        AttemptCount(payments, i) + if i == row.invoiceId then 1 else 0
  {
    assert Owners(payments + [row]) == Owners(payments) + [row.invoiceId];
  }

  lemma CountPositive(payments: seq<Payment>, i: nat)
    ensures AttemptCount(payments, i) > 0 <==> exists p :: 0 <= p < |payments| && payments[p].invoiceId == i
  {
    if AttemptCount(payments, i) > 0 {
      assert i in Owners(payments);
      var p :| 0 <= p < |payments| && Owners(payments)[p] == i;
      assert payments[p].invoiceId == i;
    }
    if p :| 0 <= p < |payments| && payments[p].invoiceId == i {
      assert Owners(payments)[p] == i;
    }
  }
}
