// Each billing transaction, taken alone, leads from a good state to a good state.
module BillingSteps {
  import opened Wrappers
  import opened Clock
  import opened BillingTables
  import opened Ledger
  import opened BillingCommands
  import opened BillingInvariant
  import Int64

  /** An invoice row read earlier still describes the committed row, up to the retry schedule. */
  predicate Agrees(db: Tables, i: nat, seen: InvoiceView) {
    && i < |db.invoices|
    && seen.attemptCount == AttemptCount(db.payments, i)
    && seen.invoice == db.invoices[i].(nextAttemptAt := seen.invoice.nextAttemptAt)
  }

  // ---- Row updates ---------------------------------------------------------------------------

  predicate SameTerms(a: Payment, b: Payment) {
    a.invoiceId == b.invoiceId && a.attemptNo == b.attemptNo && a.key == b.key &&
    a.amount == b.amount && a.currency == b.currency && a.methodId == b.methodId
  }

  predicate SameBills(db: Tables, db': Tables) {
    |db'.invoices| == |db.invoices| &&
    forall i :: 0 <= i < |db.invoices| ==> SameInvoice(db'.invoices[i], db.invoices[i])
  }

  predicate RowUpdate(db: Tables, db': Tables, p: nat) {
    p < |db.payments| == |db'.payments| && db'.payments == db.payments[p := db'.payments[p]] &&
    SameTerms(db'.payments[p], db.payments[p]) && SameBills(db, db')
  }

  /** Every other attempt of the invoice of an unresolved payment has failed. */
  lemma OthersFailed(db: Tables, p: nat, q: nat)
    requires OneAtATime(db) && Unresolved(db, p) && q < |db.payments| && q != p
    requires db.payments[q].invoiceId == db.payments[p].invoiceId
    ensures db.payments[q].status.Failed?
  {
  }

  lemma UpdateKeepsRows(db: Tables, db': Tables, p: nat)
    requires RowsMatch(db) && RowUpdate(db, db', p)
    ensures RowsMatch(db') && Owners(db'.payments) == Owners(db.payments)
  {
    OwnersUpdated(db.payments, p, db'.payments[p]);
    forall q | 0 <= q < |db'.payments| ensures RowMatches(db', q) {
      assert RowMatches(db, q);
    }
  }

  lemma UpdateKeepsOrder(db: Tables, db': Tables, p: nat)
    requires OneAtATime(db) && RowUpdate(db, db', p)
    requires Unresolved(db, p) || db'.payments[p].status == db.payments[p].status
    ensures OneAtATime(db')
  {
    forall q, r | 0 <= q < r < |db'.payments| && db'.payments[q].invoiceId == db'.payments[r].invoiceId
      ensures db'.payments[q].status.Failed?
    {
      assert db.payments[q].status.Failed?;
    }
  }

  // ---- Statements that leave every invoice open or closed as it was ---------------------------

  /** Nothing that the coupling looks at has changed, except that row `p` may move between unresolved states. */
  predicate Quiet(db: Tables, db': Tables, p: nat, i: nat) {
    && RowUpdate(db, db', p) && i < |db.invoices|
    && db'.invoices == db.invoices[i := db.invoices[i].(nextAttemptAt := db'.invoices[i].nextAttemptAt)]
    && db'.ledger == db.ledger && db'.outbox == db.outbox
    && (db'.payments[p].status == db.payments[p].status || (db.payments[p].NonTerminal() && db'.payments[p].NonTerminal()))
  }

  lemma QuietKeepsCoupling(db: Tables, db': Tables, p: nat, i: nat)
    requires Coupled(db) && RowsMatch(db) && Quiet(db, db', p, i)
    ensures Coupled(db')
  {
    UpdateKeepsRows(db, db', p);
    forall q | 0 <= q < |db'.payments| ensures StatusAgrees(db', q) {
      assert StatusAgrees(db, q);
    }
    forall j | 0 <= j < |db'.invoices| ensures ResolutionAgrees(db', j) {
      assert ResolutionAgrees(db, j);
      if db'.invoices[j].status.Paid? {
        var q :| PaidBy(db, j, q);
        assert PaidBy(db', j, q);
      }
    }
  }

  lemma QuietKeepsBudget(cfg: Config, db: Tables, db': Tables, p: nat, i: nat)
    requires Budgeted(cfg, db) && RowsMatch(db) && Quiet(db, db', p, i)
    ensures Budgeted(cfg, db')
  {
    UpdateKeepsRows(db, db', p);
    forall j | 0 <= j < |db'.invoices| ensures WithinBudget(cfg, db', j) {
      assert WithinBudget(cfg, db, j);
      if HasUnresolved(db, j) {
        var q :| 0 <= q < |db.payments| && db.payments[q].invoiceId == j && db.payments[q].NonTerminal();
        assert db'.payments[q].invoiceId == j && db'.payments[q].NonTerminal();
      }
    }
  }

  lemma QuietKeepsGood(cfg: Config, db: Tables, db': Tables, p: nat, i: nat)
    requires Good(cfg, db) && Quiet(db, db', p, i)
    ensures Good(cfg, db')
  {
    UpdateKeepsRows(db, db', p);
    UpdateKeepsOrder(db, db', p);
    QuietKeepsCoupling(db, db', p, i);
    QuietKeepsBudget(cfg, db, db', p, i);
    QuietKeepsBooks(cfg, db, db', i);
    RecordsKept(cfg, db, db');
  }

  lemma SetScheduleKeepsGood(cfg: Config, db: Tables, i: nat, at: Option<Millis>)
    requires Good(cfg, db)
    ensures Good(cfg, SetSchedule(db, i, at))
  {
    if i < |db.invoices| {
      var db' := SetSchedule(db, i, at);
      QuietKeepsBooks(cfg, db, db', i);
      RecordsKept(cfg, db, db');
      forall p | 0 <= p < |db'.payments| ensures RowMatches(db', p) && StatusAgrees(db', p) {
        assert RowMatches(db, p) && StatusAgrees(db, p);
      }
      forall j | 0 <= j < |db'.invoices| ensures ResolutionAgrees(db', j) && WithinBudget(cfg, db', j) {
        assert ResolutionAgrees(db, j) && WithinBudget(cfg, db, j);
        if db'.invoices[j].status.Paid? {
          var q :| PaidBy(db, j, q);
          assert PaidBy(db', j, q);
        }
        if HasUnresolved(db, j) {
          var q :| 0 <= q < |db.payments| && db.payments[q].invoiceId == j && db.payments[q].NonTerminal();
          assert db'.payments[q].NonTerminal();
        }
      }
    }
  }

  lemma MarkProcessingKeepsGood(cfg: Config, db: Tables, p: nat, intent: string)
    requires Good(cfg, db)
    ensures var r := MarkProcessing(db, p, intent); r.Done? ==> Good(cfg, r.db)
  {
    var r := MarkProcessing(db, p, intent);
    if r.Done? && r.db != db {
      assert StatusAgrees(db, p);
      QuietKeepsGood(cfg, db, r.db, p, db.payments[p].invoiceId);
    }
  }

  // ---- Creating an invoice -------------------------------------------------------------------

  lemma NoRowsBeyond(db: Tables, i: nat)
    requires RowsMatch(db) && i >= |db.invoices|
    ensures AttemptCount(db.payments, i) == 0
  {
    CountPositive(db.payments, i);
    forall p | 0 <= p < |db.payments| ensures db.payments[p].invoiceId != i {
      assert RowMatches(db, p);
    }
  }

  lemma CreateKeepsGood(cfg: Config, db: Tables, cmd: RideCharge, now: Millis)
    requires Good(cfg, db) && Int64.InRange(cmd.amount) && (cmd.kind.RideFare? ==> cmd.driverId.Some?)
    ensures var r := CreateInvoice(db, cmd, now, cfg); r.Done? ==> Good(cfg, r.db)
  {
    var r := CreateInvoice(db, cmd, now, cfg);
    if r.Done? && !HasInvoice(db.invoices, cmd.rideId, cmd.kind) {
      var n := |db.invoices|;
      CreateKeepsBooks(cfg, db, cmd, now);
      var legs := r.db.ledger[|db.ledger|].legs;
      assert legs[0].amount > 0 && legs[1].amount > 0 && (cmd.kind.RideFare? ==> legs[2].amount > 0);
      assert SoundInvoice(r.db.invoices[n], cfg.commissionBps);
      RecordsKept(cfg, db, r.db);
      forall p | 0 <= p < |db.payments| ensures RowMatches(r.db, p) && StatusAgrees(r.db, p) {
        assert RowMatches(db, p) && StatusAgrees(db, p);
      }
      NoRowsBeyond(db, n);
      forall j | 0 <= j < |r.db.invoices| ensures ResolutionAgrees(r.db, j) && WithinBudget(cfg, r.db, j) {
        if j < n {
          assert ResolutionAgrees(db, j) && WithinBudget(cfg, db, j);
          if db.invoices[j].status.Paid? {
            var q :| PaidBy(db, j, q);
            assert PaidBy(r.db, j, q);
          }
          if HasUnresolved(db, j) {
            assert HasUnresolved(r.db, j);
          }
        }
      }
    }
  }

  // ---- Finalizing ----------------------------------------------------------------------------

  /** The tables after unresolved payment `p` of invoice `i` was resolved. */
  predicate Resolves(db: Tables, db': Tables, p: nat, i: nat) {
    && RowUpdate(db, db', p) && Unresolved(db, p) && db.payments[p].invoiceId == i && i < |db.invoices|
    && !db'.payments[p].NonTerminal()
    && db'.invoices == db.invoices[i := db'.invoices[i]]
    && (db'.invoices[i].status == if db'.payments[p].status.Succeeded? then Paid else db'.invoices[i].status)
    && (db'.payments[p].status.Failed? ==> db'.invoices[i].status.Open? || db'.invoices[i].status.Uncollectible?)
  }

  lemma ResolveKeepsCoupling(db: Tables, db': Tables, p: nat, i: nat)
    requires Coupled(db) && RowsMatch(db) && OneAtATime(db) && Resolves(db, db', p, i)
    ensures Coupled(db')
  {
    UpdateKeepsRows(db, db', p);
    forall q | 0 <= q < |db'.payments| ensures StatusAgrees(db', q) {
      assert StatusAgrees(db, q);
      if q != p && db.payments[q].invoiceId == i {
        OthersFailed(db, p, q);
      }
    }
    CountPositive(db.payments, i);
    forall j | 0 <= j < |db'.invoices| ensures ResolutionAgrees(db', j) {
      assert ResolutionAgrees(db, j) && StatusAgrees(db, p);
      if j == i {
        assert db'.invoices[i].status.Paid? ==> PaidBy(db', i, p);
      } else if db'.invoices[j].status.Paid? {
        var q :| PaidBy(db, j, q);
        assert PaidBy(db', j, q);
      }
    }
  }

  lemma ResolveKeepsBudget(cfg: Config, db: Tables, db': Tables, p: nat, i: nat)
    requires Budgeted(cfg, db) && RowsMatch(db) && Resolves(db, db', p, i)
    requires db'.invoices[i].status.Open? ==> AttemptCount(db.payments, i) < cfg.maxAttempts
    ensures Budgeted(cfg, db')
  {
    UpdateKeepsRows(db, db', p);
    forall j | 0 <= j < |db'.invoices| ensures WithinBudget(cfg, db', j) {
      assert WithinBudget(cfg, db, j);
      if j != i && HasUnresolved(db, j) {
        var q :| 0 <= q < |db.payments| && db.payments[q].invoiceId == j && db.payments[q].NonTerminal();
        assert db'.payments[q].NonTerminal();
      }
    }
  }

  lemma ResolveKeepsGood(cfg: Config, db: Tables, db': Tables, p: nat, i: nat)
    requires Good(cfg, db) && Resolves(db, db', p, i) && Books(cfg, db') && Records(cfg, db')
    requires db'.invoices[i].status.Open? ==> AttemptCount(db.payments, i) < cfg.maxAttempts
    ensures Good(cfg, db')
  {
    UpdateKeepsRows(db, db', p);
    UpdateKeepsOrder(db, db', p);
    ResolveKeepsCoupling(db, db', p, i);
    ResolveKeepsBudget(cfg, db, db', p, i);
  }

  /** The posting of a sound invoice is never refused. */
  lemma ClosingIsPostable(ledger: seq<LedgerTx>, kind: TxKind, i: nat, inv: Invoice)
    requires inv.amount > 0
    ensures Post(ledger, kind, i, inv.currency, T2Legs(inv)).Some?
    ensures Post(ledger, kind, i, inv.currency, T3Legs(inv)).Some?
  {
    TwoLegs(T2Legs(inv)[0], T2Legs(inv)[1]);
    TwoLegs(T3Legs(inv)[0], T3Legs(inv)[1]);
  }

  /**
   * FinalizeChargeFailed always commits: it either schedules the next attempt or writes the invoice off.
   * The branch for an invoice that is no longer open is never taken.
   */
  lemma FailKeepsGood(cfg: Config, db: Tables, p: nat, i: nat, code: string, seen: InvoiceView, now: Millis)
    requires Good(cfg, db) && Unresolved(db, p) && db.payments[p].invoiceId == i && Agrees(db, i, seen)
    ensures seen.invoice.status.Open? && db.invoices[i].status.Open?
    ensures var r := FinalizeFailed(db, p, i, code, seen, now, cfg);
            r.Done? && Good(cfg, r.db) && Resolves(db, r.db, p, i) &&
            if AttemptCount(db.payments, i) < cfg.maxAttempts
            then r.db.invoices[i].status.Open? && r.db.invoices[i].nextAttemptAt.Some?
            else r.db.invoices[i].status.Uncollectible?
  {
    assert StatusAgrees(db, p);
    assert SoundInvoice(db.invoices[i], cfg.commissionBps);
    ClosingIsPostable(db.ledger, InvoiceUncollectible, i, seen.invoice);
    var r := FinalizeFailed(db, p, i, code, seen, now, cfg);
    if AttemptCount(db.payments, i) < cfg.maxAttempts {
      QuietKeepsBooks(cfg, db, r.db, i);
    } else {
      CloseKeepsBooks(cfg, db, r.db, i, seen.invoice, r.db.outbox[|db.outbox|]);
    }
    RecordsKept(cfg, db, r.db);
    ResolveKeepsGood(cfg, db, r.db, p, i);
  }

  /** FinalizeChargeSucceeded commits unless another row holds the intent id, and then the invoice is paid. */
  lemma SucceedKeepsGood(cfg: Config, db: Tables, p: nat, i: nat, intent: string, seen: InvoiceView, now: Millis)
    requires Good(cfg, db) && Unresolved(db, p) && db.payments[p].invoiceId == i && Agrees(db, i, seen)
    ensures db.invoices[i].status.Open?
    ensures var r := FinalizeSucceeded(db, p, i, intent, seen, now, cfg);
            (r.RolledBack? <==> IntentTaken(db.payments, p, intent)) &&
            (r.Done? ==> Good(cfg, r.db) && Resolves(db, r.db, p, i) && r.db.invoices[i].status.Paid?)
  {
    assert StatusAgrees(db, p);
    assert SoundInvoice(db.invoices[i], cfg.commissionBps);
    ClosingIsPostable(db.ledger, TxKind.PaymentSucceeded, i, seen.invoice);
    var r := FinalizeSucceeded(db, p, i, intent, seen, now, cfg);
    if r.Done? {
      CloseKeepsBooks(cfg, db, r.db, i, seen.invoice, r.db.outbox[|db.outbox|]);
      RecordsKept(cfg, db, r.db);
      ResolveKeepsGood(cfg, db, r.db, p, i);
    }
  }

  // ---- Claiming ------------------------------------------------------------------------------

  /** The next attempt number is free exactly when the snapshot's count is current. */
  lemma StaleCountIsCaught(cfg: Config, db: Tables, i: nat, seen: nat)
    requires Good(cfg, db) && i < |db.invoices| && seen <= AttemptCount(db.payments, i)
    ensures AttemptTaken(db.payments, i, seen + 1, IdempotencyKey(i, seen + 1)) <==> seen < AttemptCount(db.payments, i)
  {
    if seen < AttemptCount(db.payments, i) {
      var q := NthRow(db.payments, i, seen);
      assert RowMatches(db, q);
    }
    if q :| 0 <= q < |db.payments| && ((db.payments[q].invoiceId == i && db.payments[q].attemptNo == seen + 1) ||
                                       db.payments[q].key == IdempotencyKey(i, seen + 1)) {
      assert RowMatches(db, q);
      CountUpTo(db.payments, q);
    }
  }

  lemma CountUpTo(payments: seq<Payment>, q: nat)
    requires q < |payments|
    ensures multiset(Owners(payments)[..q])[payments[q].invoiceId] < AttemptCount(payments, payments[q].invoiceId)
  {
    var s := Owners(payments);
    assert s == s[..q] + [s[q]] + s[q + 1..];
  }

  /** The row of invoice `i` that has exactly `n` rows of the invoice before it. */
  lemma {:induction false} NthRow(payments: seq<Payment>, i: nat, n: nat) returns (q: nat)
    requires n < AttemptCount(payments, i)
    ensures q < |payments| && payments[q].invoiceId == i && multiset(Owners(payments)[..q])[i] == n
  {
    var last := |payments| - 1;
    OwnersAppended(payments[..last], payments[last]);
    assert payments[..last] + [payments[last]] == payments;
    assert Owners(payments[..last]) == Owners(payments)[..last];
    if n < AttemptCount(payments[..last], i) {
      q := NthRow(payments[..last], i, n);
      assert Owners(payments)[..q] == Owners(payments[..last])[..q];
    } else {
      q := last;
    }
  }

  lemma EarlierRowsCount(payments: seq<Payment>, p: nat, q: nat)
    requires p < q < |payments|
    ensures payments[p].invoiceId == payments[q].invoiceId ==>
      multiset(Owners(payments)[..p])[payments[p].invoiceId] < multiset(Owners(payments)[..q])[payments[p].invoiceId]
  {
    var s := Owners(payments);
    assert s[..q] == s[..p] + [s[p]] + s[p + 1..q];
  }

  /** No two attempts share an idempotency key. */
  lemma KeysDistinct(db: Tables)
    requires RowsMatch(db)
    ensures forall p, q :: 0 <= p < q < |db.payments| ==> db.payments[p].key != db.payments[q].key
  {
    forall p, q | 0 <= p < q < |db.payments| ensures db.payments[p].key != db.payments[q].key {
      assert RowMatches(db, p) && RowMatches(db, q);
      EarlierRowsCount(db.payments, p, q);
    }
  }

  /** A new attempt for an idle open invoice. */
  predicate Appends(db: Tables, db': Tables, i: nat) {
    && i < |db.invoices| && |db'.payments| == |db.payments| + 1 && db' == db.(payments := db'.payments)
    && db'.payments[..|db.payments|] == db.payments
    && var row := db'.payments[|db.payments|];
       row.invoiceId == i && row.status.Pending? && row.attemptNo == AttemptCount(db.payments, i) + 1 &&
       row.key == IdempotencyKey(i, row.attemptNo) && row.intentId.None? &&
       row.amount == db.invoices[i].amount && row.currency == db.invoices[i].currency
  }

  lemma AppendKeepsRows(db: Tables, db': Tables, i: nat)
    requires RowsMatch(db) && OneAtATime(db) && Coupled(db) && Appends(db, db', i) && db.invoices[i].status.Open?
    requires forall q :: 0 <= q < |db.payments| && db.payments[q].invoiceId == i ==> !db.payments[q].NonTerminal()
    ensures RowsMatch(db') && OneAtATime(db') && Coupled(db')
  {
    var n := |db.payments|;
    OwnersAppended(db.payments, db'.payments[n]);
    assert db'.payments == db.payments + [db'.payments[n]];
    forall q | 0 <= q < |db'.payments| ensures RowMatches(db', q) && StatusAgrees(db', q) {
      if q < n {
        assert RowMatches(db, q) && StatusAgrees(db, q);
        assert Owners(db'.payments)[..q] == Owners(db.payments)[..q];
      } else {
        assert Owners(db'.payments)[..n] == Owners(db.payments);
      }
    }
    forall q, r | 0 <= q < r < |db'.payments| && db'.payments[q].invoiceId == db'.payments[r].invoiceId
      ensures db'.payments[q].status.Failed?
    {
      assert StatusAgrees(db, q);
    }
    forall j | 0 <= j < |db'.invoices| ensures ResolutionAgrees(db', j) {
      assert ResolutionAgrees(db, j);
      if db'.invoices[j].status.Paid? {
        var q :| PaidBy(db, j, q);
        assert PaidBy(db', j, q);
      }
    }
  }

  lemma AppendKeepsGood(cfg: Config, db: Tables, db': Tables, i: nat)
    requires Good(cfg, db) && Appends(db, db', i) && db.invoices[i].status.Open?
    requires forall q :: 0 <= q < |db.payments| && db.payments[q].invoiceId == i ==> !db.payments[q].NonTerminal()
    ensures Good(cfg, db')
  {
    AppendKeepsRows(db, db', i);
    QuietKeepsBooks(cfg, db, db', i);
    RecordsKept(cfg, db, db');
    var n := |db.payments|;
    OwnersAppended(db.payments, db'.payments[n]);
    assert db'.payments == db.payments + [db'.payments[n]];
    forall j | 0 <= j < |db'.invoices| ensures WithinBudget(cfg, db', j) {
      assert WithinBudget(cfg, db, j);
      if j == i {
        assert db'.payments[n].NonTerminal();
      } else if HasUnresolved(db, j) {
        var q :| 0 <= q < |db.payments| && db.payments[q].invoiceId == j && db.payments[q].NonTerminal();
        assert db'.payments[q].NonTerminal();
      }
    }
  }

  /** A claim names a payment of its invoice and repeats that row's key, method and amount. */
  predicate ClaimMatches(db: Tables, c: Claim) {
    && c.paymentId < |db.payments|
    && var row := db.payments[c.paymentId];
    && c.invoiceId == row.invoiceId
    && match c
       case Immediate(_, _) => row.methodId.None?
       case Chargeable(_, _, key, methodId, amount, currency) =>
         row.methodId == Some(methodId) && row.key == key && row.amount == amount && row.currency == currency
  }

  lemma ClaimOneKeepsGood(cfg: Config, db: Tables, d: Due, now: Millis, lease: Millis)
    requires Good(cfg, db) && d.invoiceId < |db.invoices| && db.invoices[d.invoiceId].status.Open?
    requires d.attemptCount <= AttemptCount(db.payments, d.invoiceId)
    ensures var r := ClaimOne(db, d, now, lease);
            (r.Aborted? ==> d.attemptCount < AttemptCount(db.payments, d.invoiceId)) &&
            (!r.Aborted? ==> Good(cfg, r.db)) &&
            (r.Claimed? ==> ClaimMatches(r.db, r.claim) && r.claim.invoiceId == d.invoiceId && Unresolved(r.db, r.claim.paymentId))
  {
    var r := ClaimOne(db, d, now, lease);
    var existing := UnresolvedAttempt(db.payments, d.invoiceId);
    if existing.Some? {
      if !LeaseActive(db.payments[existing.value].claimedUntil, now) {
        QuietKeepsGood(cfg, db, r.db, existing.value, d.invoiceId);
      }
    } else {
      StaleCountIsCaught(cfg, db, d.invoiceId, d.attemptCount);
      if !r.Aborted? {
        AppendKeepsGood(cfg, db, r.db, d.invoiceId);
      }
    }
  }
}
