// The three ledger tables as the repository writes them: accounts created on first use, one row per
// transaction, one row per entry. The store represents a log of ledger transactions.
module LedgerStore {
  import opened Wrappers
  import opened Sequences
  import opened BillingTables
  import opened Ledger

  const NIL_UUID: Uuid := 0

  /** An account row as the unique index sees it: a missing owner is the nil uuid. */
  datatype AccountKey = AccountKey(kind: AccountType, owner: Uuid, currency: Currency)
  datatype TxRow = TxRow(kind: TxKind, invoiceId: nat, currency: Currency)
  datatype Entry = Entry(txId: nat, accountId: nat, direction: Direction, amount: int, currency: Currency)
  datatype BookRows = BookRows(accounts: seq<AccountKey>, transactions: seq<TxRow>, entries: seq<Entry>)

  function Coalesce(owner: Option<Uuid>): Uuid {
    if owner.Some? then owner.value else NIL_UUID
  }

  function KeyOf(leg: Leg): AccountKey {
    AccountKey(leg.account, Coalesce(leg.owner), leg.currency)
  }

  /** The account lookup of getOrCreateAccount. */
  function FindAccount(accounts: seq<AccountKey>, key: AccountKey): (r: Option<nat>)
    ensures r.Some? ==> r.value < |accounts| && accounts[r.value] == key
    ensures r.None? ==> key !in accounts
  {
    if accounts == [] then None
    else if accounts[|accounts| - 1] == key then Some(|accounts| - 1)
    else FindAccount(accounts[..|accounts| - 1], key)
  }

  // ---- Representation ------------------------------------------------------------------------

  /** The legs of transaction `n`, each with that position. */
  function Numbered(n: nat, legs: seq<Leg>): (s: seq<(nat, Leg)>)
    ensures |s| == |legs| && forall k :: 0 <= k < |legs| ==> s[k] == (n, legs[k])
  {
    seq(|legs|, k requires 0 <= k < |legs| => (n, legs[k]))
  }

  /** Every leg of the log in posting order, with the position of its transaction. */
  function Flat(log: seq<LedgerTx>): seq<(nat, Leg)> {
    if log == [] then []
    else
      var n := |log| - 1;
      Flat(log[..n]) + Numbered(n, log[n].legs)
  }

  predicate EntryIs(rows: BookRows, e: Entry, posted: (nat, Leg)) {
    && e.txId == posted.0 && e.accountId < |rows.accounts| && rows.accounts[e.accountId] == KeyOf(posted.1)
    && e.direction == posted.1.direction && e.amount == posted.1.amount && e.currency == posted.1.currency
  }

  ghost predicate Represents(rows: BookRows, log: seq<LedgerTx>) {
    && NoDuplicates(rows.accounts)
    && |rows.transactions| == |log|
    && (forall k :: 0 <= k < |log| ==> rows.transactions[k] == TxRow(log[k].kind, log[k].invoiceId, log[k].currency))
    && |rows.entries| == |Flat(log)|
    && (forall k :: 0 <= k < |rows.entries| ==> EntryIs(rows, rows.entries[k], Flat(log)[k]))
  }

  lemma FlatNewTx(log: seq<LedgerTx>, tx: LedgerTx)
    requires tx.legs == []
    ensures Flat(log + [tx]) == Flat(log)
  {
    assert (log + [tx])[..|log|] == log;
  }

  lemma FlatAppend(log: seq<LedgerTx>, tx: LedgerTx)
    ensures Flat(log + [tx]) == Flat(log) + Numbered(|log|, tx.legs)
  {
    assert (log + [tx])[..|log|] == log;
  }

  lemma NumberedNewLeg(n: nat, legs: seq<Leg>, leg: Leg)
    ensures Numbered(n, legs + [leg]) == Numbered(n, legs) + [(n, leg)]
  {
  }

  lemma FlatNewLeg(log: seq<LedgerTx>, kind: TxKind, i: nat, cur: Currency, legs: seq<Leg>, leg: Leg)
    ensures Flat(log + [LedgerTx(kind, i, cur, legs + [leg])]) ==
            Flat(log + [LedgerTx(kind, i, cur, legs)]) + [(|log|, leg)]
  {
    FlatAppend(log, LedgerTx(kind, i, cur, legs));
    FlatAppend(log, LedgerTx(kind, i, cur, legs + [leg]));
    NumberedNewLeg(|log|, legs, leg);
    Associate(Flat(log), Numbered(|log|, legs), [(|log|, leg)]);
  }

  /** A new account disturbs no entry. */
  lemma AccountKeeps(rows: BookRows, accounts: seq<AccountKey>, log: seq<LedgerTx>)
    requires Represents(rows, log) && NoDuplicates(accounts) && rows.accounts <= accounts
    ensures Represents(rows.(accounts := accounts), log)
  {
    forall k | 0 <= k < |rows.entries| ensures EntryIs(rows.(accounts := accounts), rows.entries[k], Flat(log)[k]) {
      assert EntryIs(rows, rows.entries[k], Flat(log)[k]);
    }
  }

  /** The entry of one more leg of the last transaction. */
  lemma EntryKeeps(
      rows: BookRows, log: seq<LedgerTx>, kind: TxKind, i: nat, cur: Currency, legs: seq<Leg>, leg: Leg, id: nat)
    requires Represents(rows, log + [LedgerTx(kind, i, cur, legs)])
    requires id < |rows.accounts| && rows.accounts[id] == KeyOf(leg)
    ensures Represents(rows.(entries := rows.entries + [Entry(|log|, id, leg.direction, leg.amount, leg.currency)]),
                       log + [LedgerTx(kind, i, cur, legs + [leg])])
  {
    FlatNewLeg(log, kind, i, cur, legs, leg);
    var before, after := log + [LedgerTx(kind, i, cur, legs)], log + [LedgerTx(kind, i, cur, legs + [leg])];
    var rows' := rows.(entries := rows.entries + [Entry(|log|, id, leg.direction, leg.amount, leg.currency)]);
    forall k | 0 <= k < |after| ensures rows'.transactions[k] == TxRow(after[k].kind, after[k].invoiceId, after[k].currency) {
      assert rows.transactions[k] == TxRow(before[k].kind, before[k].invoiceId, before[k].currency);
    }
    forall k | 0 <= k < |rows.entries| ensures EntryIs(rows', rows'.entries[k], Flat(after)[k]) {
      assert EntryIs(rows, rows.entries[k], Flat(before)[k]);
    }
  }

  /** The transaction's row, before any of its legs. */
  lemma TxKeeps(rows: BookRows, log: seq<LedgerTx>, tx: LedgerTx)
    requires Represents(rows, log) && tx.legs == []
    ensures Represents(rows.(transactions := rows.transactions + [TxRow(tx.kind, tx.invoiceId, tx.currency)]), log + [tx])
  {
    FlatNewTx(log, tx);
    var rows' := rows.(transactions := rows.transactions + [TxRow(tx.kind, tx.invoiceId, tx.currency)]);
    forall k | 0 <= k < |rows.entries| ensures EntryIs(rows', rows.entries[k], Flat(log)[k]) {
      assert EntryIs(rows, rows.entries[k], Flat(log)[k]);
    }
  }

  function EntryOf(txId: nat, id: nat, leg: Leg): Entry {
    Entry(txId, id, leg.direction, leg.amount, leg.currency)
  }

  /** One turn of the posting loop: the leg's account exists, and its entry joins the table. */
  lemma LegKeeps(rows: BookRows, rows': BookRows, log: seq<LedgerTx>, tx: LedgerTx, legs: seq<Leg>, k: nat, id: nat)
    requires k < |legs| && tx.legs == legs[..k] && Represents(rows, log + [tx])
    requires NoDuplicates(rows'.accounts) && rows.accounts <= rows'.accounts
    requires id < |rows'.accounts| && rows'.accounts[id] == KeyOf(legs[k])
    requires rows'.transactions == rows.transactions && rows'.entries == rows.entries + [EntryOf(|log|, id, legs[k])]
    ensures Represents(rows', log + [tx.(legs := legs[..k + 1])])
  {
    AccountKeeps(rows, rows'.accounts, log + [tx]);
    EntryKeeps(rows.(accounts := rows'.accounts), log, tx.kind, tx.invoiceId, tx.currency, legs[..k], legs[k], id);
    assert legs[..k + 1] == legs[..k] + [legs[k]];
  }

  class Store {
    var rows: BookRows
    ghost var log: seq<LedgerTx>

    ghost predicate Valid()
      reads this
    {
      Represents(rows, log)
    }

    constructor ()
      ensures Valid() && log == []
    {
      rows := BookRows([], [], []);
      log := [];
    }

    method GetOrCreateAccount(key: AccountKey) returns (id: nat)
      requires NoDuplicates(rows.accounts)
      modifies this`rows
      ensures id < |rows.accounts| && rows.accounts[id] == key && NoDuplicates(rows.accounts)
      ensures rows.transactions == old(rows.transactions) && rows.entries == old(rows.entries)
      ensures rows.accounts == old(rows.accounts) || rows.accounts == old(rows.accounts) + [key]
    {
      match FindAccount(rows.accounts, key) {
        case Some(i) => id := i;
        case None =>
          id := |rows.accounts|;
          rows := rows.(accounts := rows.accounts + [key]);
      }
    }

    /**
     * Validates the legs, then inserts the transaction row and one entry per leg. On a refused leg the
     * tables are left half-written, for the caller's transaction to undo.
     */
    method PostTransaction(kind: TxKind, i: nat, cur: Currency, legs: seq<Leg>) returns (ok: bool)
      requires Valid()
      modifies this
      ensures ok <==> Post(old(log), kind, i, cur, legs).Some?
      ensures ok ==> Valid() && Some(log) == Post(old(log), kind, i, cur, legs)
    {
      var err := ValidateLegs(cur, legs);
      if err.Some? {
        return false;
      }
      ghost var log0 := log;
      var txId := |rows.transactions|;
      TxKeeps(rows, log0, LedgerTx(kind, i, cur, []));
      rows := rows.(transactions := rows.transactions + [TxRow(kind, i, cur)]);
      log := log0 + [LedgerTx(kind, i, cur, [])];
      var k := 0;
      while k < |legs|
        invariant 0 <= k <= |legs|
        invariant log == log0 + [LedgerTx(kind, i, cur, legs[..k])]
        invariant txId == |log0| && Valid() && Storable(legs[..k])
      {
        var leg := legs[k];
        ghost var before := rows;
        var id := GetOrCreateAccount(KeyOf(leg));
        if leg.amount <= 0 {
          assert !Storable(legs);
          return false;
        }
        rows := rows.(entries := rows.entries + [Entry(txId, id, leg.direction, leg.amount, leg.currency)]);
        LegKeeps(before, rows, log0, log[|log0|], legs, k, id);
        log := log0 + [LedgerTx(kind, i, cur, legs[..k + 1])];
        assert legs[..k + 1] == legs[..k] + [leg];
        k := k + 1;
      }
      assert legs[..k] == legs;
      return true;
    }
  }

  // ---- Balances ------------------------------------------------------------------------------

  /** The balance query: entries joined with their accounts, credits positive, debits negative. */
  function SumEntries(rows: BookRows, n: nat, key: AccountKey): int
    requires n <= |rows.entries|
  {
    if n == 0 then 0
    else
      var e := rows.entries[n - 1];
      SumEntries(rows, n - 1, key) +
      if e.accountId < |rows.accounts| && rows.accounts[e.accountId] == key
      then (if e.direction.Credit? then e.amount else -e.amount) else 0
  }

  function GetBalance(rows: BookRows, kind: AccountType, owner: Option<Uuid>, cur: Currency): int {
    SumEntries(rows, |rows.entries|, AccountKey(kind, Coalesce(owner), cur))
  }

  function SumFlat(legs: seq<(nat, Leg)>, a: Account): int {
    if legs == [] then 0 else SumFlat(legs[..|legs| - 1], a) + Signed(legs[|legs| - 1].1, a)
  }

  lemma {:induction false} SumFlatAppend(xs: seq<(nat, Leg)>, ys: seq<(nat, Leg)>, a: Account)
    ensures SumFlat(xs + ys, a) == SumFlat(xs, a) + SumFlat(ys, a)
  {
    if ys == [] {
      assert xs + ys == xs;
    } else {
      SumFlatAppend(xs, ys[..|ys| - 1], a);
      assert (xs + ys)[..|xs + ys| - 1] == xs + ys[..|ys| - 1];
    }
  }

  lemma {:induction false} SumFlatLegs(n: nat, legs: seq<Leg>, a: Account)
    ensures SumFlat(Numbered(n, legs), a) == LegsBalance(legs, a)
  {
    if legs != [] {
      var m := |legs| - 1;
      SumFlatLegs(n, legs[..m], a);
      assert Numbered(n, legs)[..m] == Numbered(n, legs[..m]);
    }
  }

  lemma {:induction false} SumFlatIsBalance(log: seq<LedgerTx>, a: Account)
    ensures SumFlat(Flat(log), a) == Balance(log, a)
  {
    if log != [] {
      var n := |log| - 1;
      SumFlatIsBalance(log[..n], a);
      SumFlatAppend(Flat(log[..n]), Numbered(n, log[n].legs), a);
      SumFlatLegs(n, log[n].legs, a);
    }
  }

  /** The legs that the index cannot tell apart: those of `key`'s owner, and of no owner if that is the nil uuid. */
  function SumMerged(legs: seq<(nat, Leg)>, key: AccountKey): int {
    SumFlat(legs, Account(key.kind, Some(key.owner), key.currency)) +
    if key.owner == NIL_UUID then SumFlat(legs, Account(key.kind, None, key.currency)) else 0
  }

  lemma {:induction false} SumEntriesIsFlat(rows: BookRows, log: seq<LedgerTx>, n: nat, key: AccountKey)
    requires Represents(rows, log) && n <= |rows.entries|
    ensures SumEntries(rows, n, key) == SumMerged(Flat(log)[..n], key)
  {
    if n > 0 {
      SumEntriesIsFlat(rows, log, n - 1, key);
      assert EntryIs(rows, rows.entries[n - 1], Flat(log)[n - 1]);
      assert Flat(log)[..n][..n - 1] == Flat(log)[..n - 1];
    }
  }

  /**
   * The query over the tables returns the balance of the log that the tables represent; as the index takes
   * a missing owner for the nil uuid, those two accounts of a kind come out as one.
   */
  lemma QueryIsBalance(rows: BookRows, log: seq<LedgerTx>, kind: AccountType, owner: Option<Uuid>, cur: Currency)
    requires Represents(rows, log)
    ensures GetBalance(rows, kind, owner, cur) ==
            if Coalesce(owner) != NIL_UUID then Balance(log, Account(kind, owner, cur))
            else Balance(log, Account(kind, None, cur)) + Balance(log, Account(kind, Some(NIL_UUID), cur))
  {
    SumEntriesIsFlat(rows, log, |rows.entries|, AccountKey(kind, Coalesce(owner), cur));
    assert Flat(log)[..|rows.entries|] == Flat(log);
    SumFlatIsBalance(log, Account(kind, Some(Coalesce(owner)), cur));
    SumFlatIsBalance(log, Account(kind, None, cur));
  }

  /** Real owners are never the sentinel that stands for "no owner". */
  predicate NoNilOwner(log: seq<LedgerTx>) {
    forall k :: 0 <= k < |Flat(log)| ==> Flat(log)[k].1.owner != Some(NIL_UUID)
  }

  lemma {:induction false} NilHoldsNothing(legs: seq<(nat, Leg)>, kind: AccountType, cur: Currency)
    requires forall k :: 0 <= k < |legs| ==> legs[k].1.owner != Some(NIL_UUID)
    ensures SumFlat(legs, Account(kind, Some(NIL_UUID), cur)) == 0
  {
    if legs != [] {
      NilHoldsNothing(legs[..|legs| - 1], kind, cur);
    }
  }

  /** With real owners the query is the balance of the one account. */
  lemma QueryIsOneBalance(rows: BookRows, log: seq<LedgerTx>, a: Account)
    requires Represents(rows, log) && NoNilOwner(log) && a.owner != Some(NIL_UUID)
    ensures GetBalance(rows, a.kind, a.owner, a.currency) == Balance(log, a)
  {
    QueryIsBalance(rows, log, a.kind, a.owner, a.currency);
    NilHoldsNothing(Flat(log), a.kind, a.currency);
    SumFlatIsBalance(log, Account(a.kind, Some(NIL_UUID), a.currency));
  }
}
