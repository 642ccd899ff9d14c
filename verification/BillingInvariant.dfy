// What every committed billing state satisfies, and that each transaction keeps it.
module BillingInvariant {
  import opened Wrappers
  import opened Clock
  import opened BillingTables
  import opened Ledger
  import opened BillingCommands
  import Int64

  function Max(a: int, b: int): int {
    if a >= b then a else b
  }

  // ---- Payments and invoices -----------------------------------------------------------------

  predicate SoundInvoice(inv: Invoice, bps: int) {
    && Int64.InRange(inv.amount) && inv.amount > 0
    && !inv.status.Void?
    && (inv.kind.RideFare? ==> inv.driverId.Some? && Fee(inv.amount, bps) > 0 && Payable(inv.amount, bps) > 0)
  }

  ghost predicate InvoicesSound(cfg: Config, db: Tables) {
    && (forall i :: 0 <= i < |db.invoices| ==> SoundInvoice(db.invoices[i], cfg.commissionBps))
    && (forall i, j | 0 <= i < j < |db.invoices| ::
          (db.invoices[i].rideId, db.invoices[i].kind) != (db.invoices[j].rideId, db.invoices[j].kind))
  }

  /** Row `p` bills its invoice, and its attempt number counts the rows of that invoice up to `p`. */
  predicate RowMatches(db: Tables, p: nat)
    requires p < |db.payments|
  {
    var row := db.payments[p];
    && row.invoiceId < |db.invoices|
    && row.amount == db.invoices[row.invoiceId].amount
    && row.currency == db.invoices[row.invoiceId].currency
    && row.key == IdempotencyKey(row.invoiceId, row.attemptNo)
    && row.attemptNo == multiset(Owners(db.payments)[..p])[row.invoiceId] + 1
  }

  ghost predicate RowsMatch(db: Tables) {
    forall p :: 0 <= p < |db.payments| ==> RowMatches(db, p)
  }

  /** A later attempt exists only after the earlier ones failed. */
  ghost predicate OneAtATime(db: Tables) {
    forall p, q | 0 <= p < q < |db.payments| && db.payments[p].invoiceId == db.payments[q].invoiceId ::
      db.payments[p].status.Failed?
  }

  predicate StatusAgrees(db: Tables, p: nat)
    requires p < |db.payments|
  {
    var row := db.payments[p];
    && row.invoiceId < |db.invoices|
    && (row.NonTerminal() ==> db.invoices[row.invoiceId].status.Open?)
    && (row.status.Succeeded? ==> db.invoices[row.invoiceId].status.Paid?)
  }

  predicate PaidBy(db: Tables, i: nat, p: nat) {
    p < |db.payments| && db.payments[p].invoiceId == i && db.payments[p].status.Succeeded?
  }

  ghost predicate ResolutionAgrees(db: Tables, i: nat)
    requires i < |db.invoices|
  {
    && (db.invoices[i].status.Paid? ==> exists p :: PaidBy(db, i, p))
    && (db.invoices[i].status.Uncollectible? ==> AttemptCount(db.payments, i) > 0)
  }

  ghost predicate Coupled(db: Tables) {
    && (forall p :: 0 <= p < |db.payments| ==> StatusAgrees(db, p))
    && (forall i :: 0 <= i < |db.invoices| ==> ResolutionAgrees(db, i))
  }

  ghost predicate HasUnresolved(db: Tables, i: nat) {
    exists p :: 0 <= p < |db.payments| && db.payments[p].invoiceId == i && db.payments[p].NonTerminal()
  }

  /** Attempts stay within the budget, and an idle open invoice still has budget left. */
  ghost predicate WithinBudget(cfg: Config, db: Tables, i: nat)
    requires i < |db.invoices|
  {
    var n := AttemptCount(db.payments, i);
    && n <= Max(1, cfg.maxAttempts)
    && (db.invoices[i].status.Open? && !HasUnresolved(db, i) ==> n == 0 || n < cfg.maxAttempts)
  }

  ghost predicate Budgeted(cfg: Config, db: Tables) {
    forall i :: 0 <= i < |db.invoices| ==> WithinBudget(cfg, db, i)
  }

  // ---- The books -----------------------------------------------------------------------------

  function Stamps(ledger: seq<LedgerTx>): (s: seq<(TxKind, nat)>)
    ensures |s| == |ledger|
  {
    seq(|ledger|, k requires 0 <= k < |ledger| => (ledger[k].kind, ledger[k].invoiceId))
  }

  function Posted(ledger: seq<LedgerTx>, kind: TxKind, i: nat): nat {
    multiset(Stamps(ledger))[(kind, i)]
  }

  function Notice(e: Event): (bool, nat) {
    (e.PaymentCompleted?, e.invoiceId)
  }

  function Notices(outbox: seq<Event>): (s: seq<(bool, nat)>)
    ensures |s| == |outbox|
  {
    seq(|outbox|, k requires 0 <= k < |outbox| => Notice(outbox[k]))
  }

  /** How many payment.completed (or payment.failed) rows the outbox holds for invoice `i`. */
  function Emitted(outbox: seq<Event>, completed: bool, i: nat): nat {
    multiset(Notices(outbox))[(completed, i)]
  }

  function One(b: bool): nat {
    if b then 1 else 0
  }

  function HasStatus(db: Tables, i: nat, s: InvoiceStatus): bool {
    i < |db.invoices| && db.invoices[i].status == s
  }

  /** One T1 per invoice; one T2 and one completed row per paid invoice; one T3 and one failed row per written-off one. */
  predicate PostedOnce(db: Tables, i: nat) {
    && Posted(db.ledger, InvoiceOpened, i) == One(i < |db.invoices|)
    && Posted(db.ledger, TxKind.PaymentSucceeded, i) == One(HasStatus(db, i, Paid))
    && Posted(db.ledger, InvoiceUncollectible, i) == One(HasStatus(db, i, Uncollectible))
    && Emitted(db.outbox, true, i) == One(HasStatus(db, i, Paid))
    && Emitted(db.outbox, false, i) == One(HasStatus(db, i, Uncollectible))
  }

  /** What one invoice, in its present status, puts on account `a`. */
  function Position(inv: Invoice, bps: int, a: Account): int {
    if a.currency != inv.currency then 0
    else
      match a.kind
      case ClientReceivable => if a.owner == Some(inv.clientId) && inv.status.Open? then -inv.amount else 0
      case PspClearing => if a.owner.None? && inv.status.Paid? then -inv.amount else 0
      case BadDebt => if a.owner.None? && inv.status.Uncollectible? then -inv.amount else 0
      case DriverPayable => if inv.kind.RideFare? && a.owner == inv.driverId then Payable(inv.amount, bps) else 0
      case PlatformRevenue =>
        if a.owner.Some? then 0 else if inv.kind.RideFare? then Fee(inv.amount, bps) else inv.amount
      case PspFees => 0
  }

  function Owed(invoices: seq<Invoice>, bps: int, a: Account): int {
    if invoices == [] then 0
    else Owed(invoices[..|invoices| - 1], bps, a) + Position(invoices[|invoices| - 1], bps, a)
  }

  ghost predicate Books(cfg: Config, db: Tables) {
    && (forall i: nat :: PostedOnce(db, i))
    && (forall a :: Balance(db.ledger, a) == Owed(db.invoices, cfg.commissionBps, a))
  }

  /** Ledger transaction `k` holds exactly the legs of its kind for the invoice it refers to. */
  predicate LedgerRecord(db: Tables, bps: int, k: nat)
    requires k < |db.ledger|
  {
    var tx := db.ledger[k];
    && tx.invoiceId < |db.invoices|
    && var inv := db.invoices[tx.invoiceId];
    && tx.currency == inv.currency && (inv.kind.RideFare? ==> inv.driverId.Some?)
    && tx.legs == (match tx.kind
                   case InvoiceOpened => T1Legs(inv.kind, inv.clientId, inv.driverId, inv.amount, inv.currency, bps)
                   case PaymentSucceeded => T2Legs(inv)
                   case InvoiceUncollectible => T3Legs(inv))
  }

  /** Outbox row `k` describes the invoice it refers to. */
  predicate OutboxRecord(db: Tables, bps: int, k: nat)
    requires k < |db.outbox|
  {
    var e := db.outbox[k];
    && e.invoiceId < |db.invoices|
    && var inv := db.invoices[e.invoiceId];
    && e == if e.PaymentCompleted? then CompletedEvent(e.invoiceId, inv, bps)
            else PaymentFailed(inv.rideId, e.invoiceId, inv.clientId, inv.amount, inv.currency, e.failureCode)
  }

  ghost predicate Records(cfg: Config, db: Tables) {
    && (forall k :: 0 <= k < |db.ledger| ==> LedgerRecord(db, cfg.commissionBps, k))
    && (forall k :: 0 <= k < |db.outbox| ==> OutboxRecord(db, cfg.commissionBps, k))
  }

  ghost predicate Good(cfg: Config, db: Tables) {
    && InvoicesSound(cfg, db) && RowsMatch(db) && OneAtATime(db) && Coupled(db)
    && Budgeted(cfg, db) && Books(cfg, db) && Records(cfg, db)
  }

  /** The terms of an invoice never change; only its status, schedule and payment time do. */
  predicate SameInvoice(a: Invoice, b: Invoice) {
    a == b.(status := a.status, nextAttemptAt := a.nextAttemptAt, paidAt := a.paidAt)
  }

  lemma RecordsKept(cfg: Config, db: Tables, db': Tables)
    requires Records(cfg, db) && |db.invoices| <= |db'.invoices|
    requires forall i :: 0 <= i < |db.invoices| ==> SameInvoice(db'.invoices[i], db.invoices[i])
    requires db.ledger <= db'.ledger && db.outbox <= db'.outbox
    requires forall k :: |db.ledger| <= k < |db'.ledger| ==> LedgerRecord(db', cfg.commissionBps, k)
    requires forall k :: |db.outbox| <= k < |db'.outbox| ==> OutboxRecord(db', cfg.commissionBps, k)
    ensures Records(cfg, db')
  {
    forall k | 0 <= k < |db'.ledger| ensures LedgerRecord(db', cfg.commissionBps, k) {
      if k < |db.ledger| {
        assert LedgerRecord(db, cfg.commissionBps, k);
      }
    }
    forall k | 0 <= k < |db'.outbox| ensures OutboxRecord(db', cfg.commissionBps, k) {
      if k < |db.outbox| {
        assert OutboxRecord(db, cfg.commissionBps, k);
      }
    }
  }

  // ---- Sums and counts under the row operations ----------------------------------------------

  lemma OwedAppend(invoices: seq<Invoice>, inv: Invoice, bps: int, a: Account)
    ensures Owed(invoices + [inv], bps, a) == Owed(invoices, bps, a) + Position(inv, bps, a)
  {
    assert (invoices + [inv])[..|invoices|] == invoices;
  }

  lemma {:induction false} OwedUpdate(invoices: seq<Invoice>, i: nat, inv: Invoice, bps: int, a: Account)
    requires i < |invoices|
    ensures Owed(invoices[i := inv], bps, a) ==
            Owed(invoices, bps, a) - Position(invoices[i], bps, a) + Position(inv, bps, a)
  {
    var n := |invoices| - 1;
    if i == n {
      assert invoices[i := inv][..n] == invoices[..n];
    } else {
      OwedUpdate(invoices[..n], i, inv, bps, a);
      assert invoices[i := inv][..n] == invoices[..n][i := inv];
    }
  }

  lemma PostedAppend(ledger: seq<LedgerTx>, tx: LedgerTx)
    ensures forall kind, i :: Posted(ledger + [tx], kind, i) ==
                              Posted(ledger, kind, i) + One(tx.kind == kind && tx.invoiceId == i)
  {
    assert Stamps(ledger + [tx]) == Stamps(ledger) + [(tx.kind, tx.invoiceId)];
  }

  lemma EmittedAppend(outbox: seq<Event>, e: Event)
    ensures forall c, i :: Emitted(outbox + [e], c, i) ==
                           Emitted(outbox, c, i) + One(e.PaymentCompleted? == c && e.invoiceId == i)
  {
    assert Notices(outbox + [e]) == Notices(outbox) + [Notice(e)];
  }

  // ---- Each transaction keeps the books ------------------------------------------------------

  /** T1 puts on every account what an open invoice is worth there. */
  lemma T1IsOpenPosition(inv: Invoice, bps: int, a: Account)
    requires inv.status.Open? && (inv.kind.RideFare? ==> inv.driverId.Some?)
    ensures LegsBalance(T1Legs(inv.kind, inv.clientId, inv.driverId, inv.amount, inv.currency, bps), a) == Position(inv, bps, a)
  {
    var legs := T1Legs(inv.kind, inv.clientId, inv.driverId, inv.amount, inv.currency, bps);
    if inv.kind.CancellationFee? {
      TwoLegs(legs[0], legs[1]);
    } else {
      ThreeLegs(legs[0], legs[1], legs[2]);
    }
  }

  /** T2 and T3 move an invoice from its open position to its closed one. */
  lemma ClosingMovesPosition(open: Invoice, closed: Invoice, seen: Invoice, bps: int, a: Account)
    requires open.status.Open? && (closed.status.Paid? || closed.status.Uncollectible?)
    requires closed == open.(status := closed.status, nextAttemptAt := closed.nextAttemptAt, paidAt := closed.paidAt)
    requires seen.amount == open.amount && seen.currency == open.currency && seen.clientId == open.clientId
    ensures LegsBalance(if closed.status.Paid? then T2Legs(seen) else T3Legs(seen), a) ==
            Position(closed, bps, a) - Position(open, bps, a)
  {
    var legs := if closed.status.Paid? then T2Legs(seen) else T3Legs(seen);
    TwoLegs(legs[0], legs[1]);
  }

  lemma CreateKeepsBooks(cfg: Config, db: Tables, cmd: RideCharge, now: Millis)
    requires Books(cfg, db) && Int64.InRange(cmd.amount) && (cmd.kind.RideFare? ==> cmd.driverId.Some?)
    ensures var r := CreateInvoice(db, cmd, now, cfg); r.Done? ==> Books(cfg, r.db)
  {
    var r := CreateInvoice(db, cmd, now, cfg);
    if r.Done? && !HasInvoice(db.invoices, cmd.rideId, cmd.kind) {
      var tx := r.db.ledger[|db.ledger|];
      PostedAppend(db.ledger, tx);
      forall i: nat ensures PostedOnce(r.db, i) {
        assert PostedOnce(db, i);
      }
      forall a ensures Balance(r.db.ledger, a) == Owed(r.db.invoices, cfg.commissionBps, a) {
        BalanceAppend(db.ledger, tx, a);
        OwedAppend(db.invoices, NewInvoice(cmd, now), cfg.commissionBps, a);
        T1IsOpenPosition(NewInvoice(cmd, now), cfg.commissionBps, a);
      }
    }
  }

  /** `db'` is `db` with open invoice `i` closed by one posting and one event. */
  predicate ClosedBy(db: Tables, db': Tables, i: nat, seen: Invoice, event: Event) {
    && i < |db.invoices| && db.invoices[i].status.Open? && |db'.invoices| == |db.invoices|
    && var inv, inv' := db.invoices[i], db'.invoices[i];
    && (inv'.status.Paid? || inv'.status.Uncollectible?)
    && inv' == inv.(status := inv'.status, nextAttemptAt := inv'.nextAttemptAt, paidAt := inv'.paidAt)
    && seen.amount == inv.amount && seen.currency == inv.currency && seen.clientId == inv.clientId
    && db'.invoices == db.invoices[i := inv']
    && db'.ledger == db.ledger + [
         LedgerTx(if inv'.status.Paid? then TxKind.PaymentSucceeded else InvoiceUncollectible, i, seen.currency,
                  if inv'.status.Paid? then T2Legs(seen) else T3Legs(seen))]
    && event.invoiceId == i && event.PaymentCompleted? == inv'.status.Paid?
    && db'.outbox == db.outbox + [event]
  }

  lemma ClosePostsOnce(db: Tables, db': Tables, i: nat, seen: Invoice, event: Event, j: nat)
    requires ClosedBy(db, db', i, seen, event) && PostedOnce(db, j)
    ensures PostedOnce(db', j)
  {
    PostedAppend(db.ledger, db'.ledger[|db.ledger|]);
    EmittedAppend(db.outbox, event);
  }

  lemma CloseKeepsBooks(cfg: Config, db: Tables, db': Tables, i: nat, seen: Invoice, event: Event)
    requires Books(cfg, db) && ClosedBy(db, db', i, seen, event)
    ensures Books(cfg, db')
  {
    forall j: nat ensures PostedOnce(db', j) {
      ClosePostsOnce(db, db', i, seen, event, j);
    }
    forall a ensures Balance(db'.ledger, a) == Owed(db'.invoices, cfg.commissionBps, a) {
      BalanceAppend(db.ledger, db'.ledger[|db.ledger|], a);
      OwedUpdate(db.invoices, i, db'.invoices[i], cfg.commissionBps, a);
      ClosingMovesPosition(db.invoices[i], db'.invoices[i], seen, cfg.commissionBps, a);
    }
  }

  /** Rescheduling an invoice or touching payments moves no money. */
  lemma QuietKeepsBooks(cfg: Config, db: Tables, db': Tables, i: nat)
    requires Books(cfg, db) && i < |db.invoices|
    requires db'.ledger == db.ledger && db'.outbox == db.outbox
    requires |db'.invoices| == |db.invoices| && db'.invoices == db.invoices[i := db'.invoices[i]]
    requires db'.invoices[i] == db.invoices[i].(nextAttemptAt := db'.invoices[i].nextAttemptAt)
    ensures Books(cfg, db')
  {
    forall j: nat ensures PostedOnce(db', j) {
      assert PostedOnce(db, j);
    }
    forall a ensures Balance(db'.ledger, a) == Owed(db'.invoices, cfg.commissionBps, a) {
      OwedUpdate(db.invoices, i, db'.invoices[i], cfg.commissionBps, a);
    }
  }
}
