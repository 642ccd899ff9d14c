// What holds after every run of the collection protocol, whatever the interleaving and the provider's answers.
module BillingTheorems {
  import opened Wrappers
  import opened BillingTables
  import opened Ledger
  import opened BillingCommands
  import opened BillingInvariant
  import opened BillingSteps
  import opened BillingProtocol
  import LedgerStore

  // ---- Balances are a function of the invoices ------------------------------------------------

  /** The total over the invoices that `who` selects, by client or driver, status and currency. */
  function OpenOf(invoices: seq<Invoice>, client: Uuid, cur: Currency): int {
    if invoices == [] then 0
    else
      var inv := invoices[|invoices| - 1];
      OpenOf(invoices[..|invoices| - 1], client, cur) +
      if inv.clientId == client && inv.currency == cur && inv.status.Open? then inv.amount else 0
  }

  function InStatus(invoices: seq<Invoice>, s: InvoiceStatus, cur: Currency): int {
    if invoices == [] then 0
    else
      var inv := invoices[|invoices| - 1];
      InStatus(invoices[..|invoices| - 1], s, cur) + if inv.status == s && inv.currency == cur then inv.amount else 0
  }

  /** What a driver has earned: the fare shares of their rides, whether or not the client ever paid. */
  function Earned(invoices: seq<Invoice>, driver: Uuid, cur: Currency, bps: int): int {
    if invoices == [] then 0
    else
      var inv := invoices[|invoices| - 1];
      Earned(invoices[..|invoices| - 1], driver, cur, bps) +
      if inv.kind.RideFare? && inv.driverId == Some(driver) && inv.currency == cur then inv.amount - Fee(inv.amount, bps) else 0
  }

  function Revenue(invoices: seq<Invoice>, cur: Currency, bps: int): int {
    if invoices == [] then 0
    else
      var inv := invoices[|invoices| - 1];
      Revenue(invoices[..|invoices| - 1], cur, bps) +
      if inv.currency != cur then 0 else if inv.kind.RideFare? then Fee(inv.amount, bps) else inv.amount
  }

  lemma {:induction false} OwedByAccount(invoices: seq<Invoice>, bps: int, who: Uuid, cur: Currency)
    requires forall i :: 0 <= i < |invoices| ==> SoundInvoice(invoices[i], bps)
    ensures Owed(invoices, bps, Account(ClientReceivable, Some(who), cur)) == -OpenOf(invoices, who, cur)
    ensures Owed(invoices, bps, Account(PspClearing, None, cur)) == -InStatus(invoices, Paid, cur)
    ensures Owed(invoices, bps, Account(BadDebt, None, cur)) == -InStatus(invoices, Uncollectible, cur)
    ensures Owed(invoices, bps, Account(DriverPayable, Some(who), cur)) == Earned(invoices, who, cur, bps)
    ensures Owed(invoices, bps, Account(PlatformRevenue, None, cur)) == Revenue(invoices, cur, bps)
    ensures Owed(invoices, bps, Account(PspFees, None, cur)) == 0
  {
    if invoices != [] {
      var n := |invoices| - 1;
      OwedByAccount(invoices[..n], bps, who, cur);
      var inv := invoices[n];
      assert SoundInvoice(inv, bps);
      if inv.kind.RideFare? {
        StoredSplitIsExact(inv.amount, bps);
      }
    }
  }

  /** In every reachable state each balance is the matching total over invoices. */
  lemma BalancesFollowInvoices(cfg: Config, steps: seq<Step>, who: Uuid, cur: Currency)
    ensures var db := Run(cfg, steps).db;
      && Balance(db.ledger, Account(ClientReceivable, Some(who), cur)) == -OpenOf(db.invoices, who, cur)
      && Balance(db.ledger, Account(PspClearing, None, cur)) == -InStatus(db.invoices, Paid, cur)
      && Balance(db.ledger, Account(BadDebt, None, cur)) == -InStatus(db.invoices, Uncollectible, cur)
      && Balance(db.ledger, Account(DriverPayable, Some(who), cur)) == Earned(db.invoices, who, cur, cfg.commissionBps)
      && Balance(db.ledger, Account(PlatformRevenue, None, cur)) == Revenue(db.invoices, cur, cfg.commissionBps)
      && Balance(db.ledger, Account(PspFees, None, cur)) == 0
  {
    RunSound(cfg, steps);
    var db := Run(cfg, steps).db;
    assert Good(cfg, db);
    OwedByAccount(db.invoices, cfg.commissionBps, who, cur);
  }

  /** A platform account has no owner, and a client's or driver's account has one. */
  predicate RightOwner(a: Account) {
    a.owner.Some? <==> a.kind.ClientReceivable? || a.kind.DriverPayable?
  }

  /** Nothing is ever owed on an account with the wrong kind of owner. */
  lemma {:induction false} WrongOwnerIsEmpty(invoices: seq<Invoice>, bps: int, a: Account)
    requires (forall i :: 0 <= i < |invoices| ==> SoundInvoice(invoices[i], bps)) && !RightOwner(a)
    ensures Owed(invoices, bps, a) == 0
  {
    if invoices != [] {
      WrongOwnerIsEmpty(invoices[..|invoices| - 1], bps, a);
      assert SoundInvoice(invoices[|invoices| - 1], bps);
    }
  }

  /** So in every reachable state the query tells accounts apart, though its index merges owners. */
  lemma QueryIsExact(cfg: Config, steps: seq<Step>, rows: LedgerStore.BookRows, a: Account)
    requires LedgerStore.Represents(rows, Run(cfg, steps).db.ledger) && RightOwner(a)
    ensures LedgerStore.GetBalance(rows, a.kind, a.owner, a.currency) == Balance(Run(cfg, steps).db.ledger, a)
  {
    RunSound(cfg, steps);
    var db := Run(cfg, steps).db;
    assert Good(cfg, db);
    LedgerStore.QueryIsBalance(rows, db.ledger, a.kind, a.owner, a.currency);
    var other := Account(a.kind, if a.owner.Some? then None else Some(LedgerStore.NIL_UUID), a.currency);
    WrongOwnerIsEmpty(db.invoices, cfg.commissionBps, other);
    assert Balance(db.ledger, other) == Owed(db.invoices, cfg.commissionBps, other);
  }

  /** What GetBalance answers from the account and entry rows, in every reachable state. */
  lemma QueriesFollowInvoices(cfg: Config, steps: seq<Step>, rows: LedgerStore.BookRows, who: Uuid, cur: Currency)
    requires LedgerStore.Represents(rows, Run(cfg, steps).db.ledger)
    ensures var db := Run(cfg, steps).db;
      && LedgerStore.GetBalance(rows, ClientReceivable, Some(who), cur) == -OpenOf(db.invoices, who, cur)
      && LedgerStore.GetBalance(rows, PspClearing, None, cur) == -InStatus(db.invoices, Paid, cur)
      && LedgerStore.GetBalance(rows, BadDebt, None, cur) == -InStatus(db.invoices, Uncollectible, cur)
      && LedgerStore.GetBalance(rows, DriverPayable, Some(who), cur) == Earned(db.invoices, who, cur, cfg.commissionBps)
      && LedgerStore.GetBalance(rows, PlatformRevenue, None, cur) == Revenue(db.invoices, cur, cfg.commissionBps)
      && LedgerStore.GetBalance(rows, PspFees, None, cur) == 0
  {
    BalancesFollowInvoices(cfg, steps, who, cur);
    QueryIsExact(cfg, steps, rows, Account(ClientReceivable, Some(who), cur));
    QueryIsExact(cfg, steps, rows, Account(PspClearing, None, cur));
    QueryIsExact(cfg, steps, rows, Account(BadDebt, None, cur));
    QueryIsExact(cfg, steps, rows, Account(DriverPayable, Some(who), cur));
    QueryIsExact(cfg, steps, rows, Account(PlatformRevenue, None, cur));
    QueryIsExact(cfg, steps, rows, Account(PspFees, None, cur));
  }

  // ---- All accounts of a currency sum to zero ------------------------------------------------

  function SumBalances(accounts: seq<Account>, ledger: seq<LedgerTx>): int {
    if accounts == [] then 0
    else SumBalances(accounts[..|accounts| - 1], ledger) + Balance(ledger, accounts[|accounts| - 1])
  }

  function SumPositions(accounts: seq<Account>, inv: Invoice, bps: int): int {
    if accounts == [] then 0
    else SumPositions(accounts[..|accounts| - 1], inv, bps) + Position(inv, bps, accounts[|accounts| - 1])
  }

  function SumOwed(accounts: seq<Account>, invoices: seq<Invoice>, bps: int): int {
    if accounts == [] then 0
    else SumOwed(accounts[..|accounts| - 1], invoices, bps) + Owed(invoices, bps, accounts[|accounts| - 1])
  }

  /** The accounts that one invoice can ever touch. */
  function Touched(inv: Invoice): seq<Account> {
    [Account(ClientReceivable, Some(inv.clientId), inv.currency),
     Account(PspClearing, None, inv.currency),
     Account(BadDebt, None, inv.currency),
     Account(PlatformRevenue, None, inv.currency)] +
    if inv.kind.RideFare? then [Account(DriverPayable, inv.driverId, inv.currency)] else []
  }

  predicate Distinct(accounts: seq<Account>) {
    forall i, j :: 0 <= i < j < |accounts| ==> accounts[i] != accounts[j]
  }

  lemma {:induction false} UntouchedIsZero(accounts: seq<Account>, inv: Invoice, bps: int)
    requires forall a :: a in accounts ==> Position(inv, bps, a) == 0
    ensures SumPositions(accounts, inv, bps) == 0
  {
    if accounts != [] {
      UntouchedIsZero(accounts[..|accounts| - 1], inv, bps);
    }
  }

  /** Taking one account out of a list takes out its position. */
  lemma {:induction false} TakeOut(accounts: seq<Account>, k: nat, inv: Invoice, bps: int)
    requires k < |accounts|
    ensures SumPositions(accounts, inv, bps) ==
            SumPositions(accounts[..k] + accounts[k + 1..], inv, bps) + Position(inv, bps, accounts[k])
  {
    var n := |accounts| - 1;
    if k == n {
      assert accounts[..k] + accounts[k + 1..] == accounts[..n];
    } else {
      TakeOut(accounts[..n], k, inv, bps);
      var rest := accounts[..k] + accounts[k + 1..];
      assert rest[..n - 1] == accounts[..n][..k] + accounts[..n][k + 1..];
    }
  }

  /** The positions of an invoice over a list of accounts are those of the accounts it touches. */
  lemma {:induction false} SumOverTouched(accounts: seq<Account>, touched: seq<Account>, inv: Invoice, bps: int)
    requires Distinct(accounts) && Distinct(touched)
    requires forall a :: a in touched ==> a in accounts
    requires forall a :: a in accounts && a !in touched ==> Position(inv, bps, a) == 0
    ensures SumPositions(accounts, inv, bps) == SumPositions(touched, inv, bps)
    decreases |touched|
  {
    if touched == [] {
      UntouchedIsZero(accounts, inv, bps);
    } else {
      var n := |touched| - 1;
      assert touched[n] in accounts;
      var k :| 0 <= k < |accounts| && accounts[k] == touched[n];
      var rest := accounts[..k] + accounts[k + 1..];
      TakeOut(accounts, k, inv, bps);
      assert forall a :: a in rest <==> a in accounts && a != touched[n];
      SumOverTouched(rest, touched[..n], inv, bps);
    }
  }

  lemma TouchedSumsToZero(inv: Invoice, bps: int)
    requires SoundInvoice(inv, bps)
    ensures SumPositions(Touched(inv), inv, bps) == 0
  {
    var t := Touched(inv);
    assert t[..1] == [t[0]] && t[..2] == t[..1] + [t[1]] && t[..3] == t[..2] + [t[2]] && t[..4] == t[..3] + [t[3]];
    assert t[..1][..0] == [] && t[..2][..1] == t[..1] && t[..3][..2] == t[..2] && t[..4][..3] == t[..3];
    assert SumPositions(t[..1], inv, bps) == Position(inv, bps, t[0]);
    assert SumPositions(t[..2], inv, bps) == Position(inv, bps, t[0]) + Position(inv, bps, t[1]);
    assert SumPositions(t[..3], inv, bps) == Position(inv, bps, t[0]) + Position(inv, bps, t[1]) + Position(inv, bps, t[2]);
    if inv.kind.RideFare? {
      StoredSplitIsExact(inv.amount, bps);
      assert t[..|t| - 1] == t[..4];
    } else {
      assert t == t[..4];
    }
  }

  lemma {:induction false} SumOwedAppend(accounts: seq<Account>, invoices: seq<Invoice>, inv: Invoice, bps: int)
    ensures SumOwed(accounts, invoices + [inv], bps) == SumOwed(accounts, invoices, bps) + SumPositions(accounts, inv, bps)
  {
    if accounts != [] {
      SumOwedAppend(accounts[..|accounts| - 1], invoices, inv, bps);
      OwedAppend(invoices, inv, bps, accounts[|accounts| - 1]);
    }
  }

  lemma {:induction false} NothingOwed(accounts: seq<Account>, bps: int)
    ensures SumOwed(accounts, [], bps) == 0
  {
    if accounts != [] {
      NothingOwed(accounts[..|accounts| - 1], bps);
    }
  }

  /** `accounts` is the account table of one currency: no account twice, and none missing. */
  ghost predicate AccountTable(accounts: seq<Account>, invoices: seq<Invoice>, cur: Currency) {
    && Distinct(accounts)
    && (forall a :: a in accounts ==> a.currency == cur)
    && (forall i, a :: 0 <= i < |invoices| && invoices[i].currency == cur && a in Touched(invoices[i]) ==> a in accounts)
  }

  lemma {:induction false} OwedSumsToZero(accounts: seq<Account>, invoices: seq<Invoice>, cur: Currency, bps: int)
    requires AccountTable(accounts, invoices, cur)
    requires forall i :: 0 <= i < |invoices| ==> SoundInvoice(invoices[i], bps)
    ensures SumOwed(accounts, invoices, bps) == 0
  {
    if invoices == [] {
      NothingOwed(accounts, bps);
    } else {
      var n := |invoices| - 1;
      var inv := invoices[n];
      assert invoices == invoices[..n] + [inv];
      SumOwedAppend(accounts, invoices[..n], inv, bps);
      OwedSumsToZero(accounts, invoices[..n], cur, bps);
      assert SoundInvoice(inv, bps);
      if inv.currency == cur {
        SumOverTouched(accounts, Touched(inv), inv, bps);
        TouchedSumsToZero(inv, bps);
      } else {
        UntouchedIsZero(accounts, inv, bps);
      }
    }
  }

  lemma {:induction false} SumsAgree(cfg: Config, db: Tables, accounts: seq<Account>)
    requires Good(cfg, db)
    ensures SumBalances(accounts, db.ledger) == SumOwed(accounts, db.invoices, cfg.commissionBps)
  {
    if accounts != [] {
      SumsAgree(cfg, db, accounts[..|accounts| - 1]);
    }
  }

  /** Money is conserved: in every reachable state the balances of a currency's accounts sum to zero. */
  lemma {:induction false} AccountsSumToZero(cfg: Config, steps: seq<Step>, accounts: seq<Account>, cur: Currency)
    requires AccountTable(accounts, Run(cfg, steps).db.invoices, cur)
    ensures SumBalances(accounts, Run(cfg, steps).db.ledger) == 0
  {
    RunSound(cfg, steps);
    var db := Run(cfg, steps).db;
    SumsAgree(cfg, db, accounts);
    OwedSumsToZero(accounts, db.invoices, cur, cfg.commissionBps);
  }

  // ---- Payments and invoices are coupled -----------------------------------------------------

  /** At most one unresolved payment per invoice, and only while the invoice is open. */
  lemma OneUnresolvedPayment(cfg: Config, steps: seq<Step>, p: nat, q: nat)
    requires var db := Run(cfg, steps).db;
      Unresolved(db, p) && Unresolved(db, q) && db.payments[p].invoiceId == db.payments[q].invoiceId
    ensures p == q
    ensures var db := Run(cfg, steps).db;
      db.payments[p].invoiceId < |db.invoices| && db.invoices[db.payments[p].invoiceId].status.Open?
  {
    RunSound(cfg, steps);
    var db := Run(cfg, steps).db;
    assert StatusAgrees(db, p);
    if p != q {
      OthersFailed(db, p, q);
    }
  }

  /** An invoice is paid exactly when one of its payments succeeded, and then no other one did. */
  lemma PaidIffOneSucceeded(cfg: Config, steps: seq<Step>, i: nat)
    requires i < |Run(cfg, steps).db.invoices|
    ensures var db := Run(cfg, steps).db;
      && (db.invoices[i].status.Paid? <==> exists p :: PaidBy(db, i, p))
      && (forall p, q :: PaidBy(db, i, p) && PaidBy(db, i, q) ==> p == q)
  {
    RunSound(cfg, steps);
    var db := Run(cfg, steps).db;
    assert ResolutionAgrees(db, i);
    if p :| PaidBy(db, i, p) {
      assert StatusAgrees(db, p);
    }
    assert OneAtATime(db);
  }

  /** A written-off invoice was attempted, and every attempt failed. */
  lemma WrittenOffAfterFailures(cfg: Config, steps: seq<Step>, i: nat)
    requires HasStatus(Run(cfg, steps).db, i, Uncollectible)
    ensures var db := Run(cfg, steps).db;
      && AttemptCount(db.payments, i) > 0
      && (forall p :: 0 <= p < |db.payments| && db.payments[p].invoiceId == i ==> db.payments[p].status.Failed?)
  {
    RunSound(cfg, steps);
    var db := Run(cfg, steps).db;
    assert ResolutionAgrees(db, i);
    forall p | 0 <= p < |db.payments| && db.payments[p].invoiceId == i ensures db.payments[p].status.Failed? {
      assert StatusAgrees(db, p);
    }
  }

  /** T1 once per invoice; T2 and payment.completed once iff paid; T3 and payment.failed once iff written off. */
  lemma PostedAndEmittedOnce(cfg: Config, steps: seq<Step>, i: nat)
    ensures PostedOnce(Run(cfg, steps).db, i)
  {
    RunSound(cfg, steps);
    assert Good(cfg, Run(cfg, steps).db);
  }

  /**
   * When a finalizing transaction commits, the row that GetByID read outside the transaction and the
   * row it is about to update are both open: neither "no longer open" branch can be reached.
   */
  lemma ClosedBranchesUnreachable(cfg: Config, steps: seq<Step>, p: nat)
    requires p in Run(cfg, steps).finalizers && Run(cfg, steps).finalizers[p].seen.Some?
    ensures var w := Run(cfg, steps);
      && Unresolved(w.db, p) && w.db.payments[p].invoiceId < |w.db.invoices|
      && w.db.invoices[w.db.payments[p].invoiceId].status.Open?
      && w.finalizers[p].seen.value.invoice.status.Open?
      && w.finalizers[p].seen.value.attemptCount == AttemptCount(w.db.payments, w.db.payments[p].invoiceId)
  {
    RunSound(cfg, steps);
    var w := Run(cfg, steps);
    assert FinalizerSound(w.db, p, w.finalizers[p]);
    assert StatusAgrees(w.db, p);
  }

  predicate HasAttempt(db: Tables, i: nat, k: int) {
    exists p :: 0 <= p < |db.payments| && db.payments[p].invoiceId == i && db.payments[p].attemptNo == k
  }

  /** The attempts of an invoice are numbered 1..n with no gap, each under its own key, and n is within budget. */
  lemma AttemptsAreNumbered(cfg: Config, steps: seq<Step>, i: nat)
    requires i < |Run(cfg, steps).db.invoices|
    ensures var db := Run(cfg, steps).db;
      && AttemptCount(db.payments, i) <= Max(1, cfg.maxAttempts)
      && (forall k :: 1 <= k <= AttemptCount(db.payments, i) ==> HasAttempt(db, i, k))
      && (forall p :: 0 <= p < |db.payments| && db.payments[p].invoiceId == i ==>
            1 <= db.payments[p].attemptNo <= AttemptCount(db.payments, i))
      && (forall p, q :: 0 <= p < q < |db.payments| ==> db.payments[p].key != db.payments[q].key)
  {
    RunSound(cfg, steps);
    var db := Run(cfg, steps).db;
    assert WithinBudget(cfg, db, i);
    forall k | 1 <= k <= AttemptCount(db.payments, i) ensures HasAttempt(db, i, k) {
      var p := NthRow(db.payments, i, k - 1);
      assert RowMatches(db, p);
    }
    forall p | 0 <= p < |db.payments| && db.payments[p].invoiceId == i
      ensures 1 <= db.payments[p].attemptNo <= AttemptCount(db.payments, i)
    {
      assert RowMatches(db, p);
      CountUpTo(db.payments, p);
    }
    KeysDistinct(db);
  }

  /** A completed event repeats the split that T1 posted for the invoice, for both kinds of invoice. */
  lemma EventRepeatsPostedSplit(cfg: Config, steps: seq<Step>, k: nat, t: nat)
    requires var db := Run(cfg, steps).db;
      && k < |db.outbox| && db.outbox[k].PaymentCompleted?
      && t < |db.ledger| && db.ledger[t].kind.InvoiceOpened? && db.ledger[t].invoiceId == db.outbox[k].invoiceId
    ensures var db := Run(cfg, steps).db;
      var e, legs := db.outbox[k], db.ledger[t].legs;
      && |legs| == (if e.driverId.Some? then 3 else 2)
      && legs[0] == Leg(ClientReceivable, Some(e.clientId), e.currency, Debit, e.amount)
      && legs[1] == Leg(PlatformRevenue, None, e.currency, Credit, e.platformFee)
      && (e.driverId.Some? ==> legs[2] == Leg(DriverPayable, e.driverId, e.currency, Credit, e.driverPayable))
      && (e.driverId.None? ==> e.driverPayable == 0)
      && e.platformFee + e.driverPayable == e.amount
  {
    RunSound(cfg, steps);
    var db := Run(cfg, steps).db;
    assert OutboxRecord(db, cfg.commissionBps, k) && LedgerRecord(db, cfg.commissionBps, t);
    var inv := db.invoices[db.outbox[k].invoiceId];
    assert SoundInvoice(inv, cfg.commissionBps);
    if inv.kind.RideFare? {
      StoredSplitIsExact(inv.amount, cfg.commissionBps);
    }
  }
}
