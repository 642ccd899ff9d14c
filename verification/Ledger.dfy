// Double-entry postings: the legs of the three transactions, their validation, and account balances.
module Ledger {
  import opened Wrappers
  import opened BillingTables
  import Int64

  datatype Account = Account(kind: AccountType, owner: Option<Uuid>, currency: Currency)
  datatype LegError = MixedCurrency | Unbalanced

  // ---- Commission split ----------------------------------------------------------------------

  /** The platform's share of a fare, in int64 arithmetic. */
  function Fee(amount: int, bps: int): int {
    Int64.QuoBps(Int64.Wrap(amount * bps))
  }

  function Payable(amount: int, bps: int): int {
    Int64.Wrap(amount - Fee(amount, bps))
  }

  function T1Legs(kind: InvoiceType, client: Uuid, driver: Option<Uuid>, amount: int, cur: Currency, bps: int): seq<Leg>
    requires kind.RideFare? ==> driver.Some?
  {
    var receivable := Leg(ClientReceivable, Some(client), cur, Debit, amount);
    if kind.CancellationFee? then
      [receivable, Leg(PlatformRevenue, None, cur, Credit, amount)]
    else
      [receivable,
       Leg(PlatformRevenue, None, cur, Credit, Fee(amount, bps)),
       Leg(DriverPayable, driver, cur, Credit, Payable(amount, bps))]
  }

  function T2Legs(inv: Invoice): seq<Leg> {
    [Leg(PspClearing, None, inv.currency, Debit, inv.amount),
     Leg(ClientReceivable, Some(inv.clientId), inv.currency, Credit, inv.amount)]
  }

  function T3Legs(inv: Invoice): seq<Leg> {
    [Leg(BadDebt, None, inv.currency, Debit, inv.amount),
     Leg(ClientReceivable, Some(inv.clientId), inv.currency, Credit, inv.amount)]
  }

  // ---- Validation ----------------------------------------------------------------------------

  /** The exact sum of the legs posted in one direction. */
  function Total(legs: seq<Leg>, d: Direction): int {
    if legs == [] then 0
    else Total(legs[..|legs| - 1], d) + if legs[|legs| - 1].direction == d then legs[|legs| - 1].amount else 0
  }

  predicate OneCurrency(cur: Currency, legs: seq<Leg>) {
    forall i :: 0 <= i < |legs| ==> legs[i].currency == cur
  }

  /** What ValidateLegs accepts: one currency, and totals that agree as int64 accumulators hold them. */
  predicate Valid(cur: Currency, legs: seq<Leg>) {
    OneCurrency(cur, legs) && Int64.Wrap(Total(legs, Debit)) == Int64.Wrap(Total(legs, Credit))
  }

  method ValidateLegs(cur: Currency, legs: seq<Leg>) returns (err: Option<LegError>)
    ensures err.None? <==> Valid(cur, legs)
    ensures err == Some(MixedCurrency) <==> !OneCurrency(cur, legs)
  {
    var debits, credits := 0, 0;
    var i := 0;
    while i < |legs|
      invariant 0 <= i <= |legs|
      invariant OneCurrency(cur, legs[..i])
      invariant debits == Int64.Wrap(Total(legs[..i], Debit))
      invariant credits == Int64.Wrap(Total(legs[..i], Credit))
    {
      assert legs[..i + 1][..i] == legs[..i];
      Int64.WrapAbsorbs(Total(legs[..i], Debit), legs[i].amount);
      Int64.WrapAbsorbs(Total(legs[..i], Credit), legs[i].amount);
      if legs[i].currency != cur {
        return Some(MixedCurrency);
      }
      match legs[i].direction {
        case Debit => debits := Int64.Wrap(debits + legs[i].amount);
        case Credit => credits := Int64.Wrap(credits + legs[i].amount);
      }
      i := i + 1;
    }
    assert legs[..i] == legs;
    return if debits != credits then Some(Unbalanced) else None;
  }

  /** The table constraint `CHECK (amount_minor > 0)` on every ledger entry. */
  predicate Storable(legs: seq<Leg>) {
    forall i :: 0 <= i < |legs| ==> legs[i].amount > 0
  }

  /** PostTransaction: the extended ledger, or nothing when validation or the table refuses a leg. */
  function Post(ledger: seq<LedgerTx>, kind: TxKind, i: nat, cur: Currency, legs: seq<Leg>): Option<seq<LedgerTx>> {
    if Valid(cur, legs) && Storable(legs) then Some(ledger + [LedgerTx(kind, i, cur, legs)]) else None
  }

  // ---- Balances ------------------------------------------------------------------------------

  function Signed(leg: Leg, a: Account): int {
    if Account(leg.account, leg.owner, leg.currency) != a then 0
    else if leg.direction.Credit? then leg.amount else -leg.amount
  }

  function LegsBalance(legs: seq<Leg>, a: Account): int {
    if legs == [] then 0 else LegsBalance(legs[..|legs| - 1], a) + Signed(legs[|legs| - 1], a)
  }

  /** SUM(credits) - SUM(debits) over every entry of the account. */
  function Balance(ledger: seq<LedgerTx>, a: Account): int {
    if ledger == [] then 0 else Balance(ledger[..|ledger| - 1], a) + LegsBalance(ledger[|ledger| - 1].legs, a)
  }

  lemma BalanceAppend(ledger: seq<LedgerTx>, tx: LedgerTx, a: Account)
    ensures Balance(ledger + [tx], a) == Balance(ledger, a) + LegsBalance(tx.legs, a)
  {
    assert (ledger + [tx])[..|ledger|] == ledger;
  }

  lemma TwoLegs(x: Leg, y: Leg)
    ensures forall d :: Total([x, y], d) == (if x.direction == d then x.amount else 0) + (if y.direction == d then y.amount else 0)
    ensures forall a :: LegsBalance([x, y], a) == Signed(x, a) + Signed(y, a)
  {
    assert [x, y][..1] == [x] && [x][..0] == [];
    assert forall d :: Total([x], d) == if x.direction == d then x.amount else 0;
    assert forall a :: LegsBalance([x], a) == Signed(x, a);
  }

  lemma ThreeLegs(x: Leg, y: Leg, z: Leg)
    ensures forall d :: Total([x, y, z], d) == (if x.direction == d then x.amount else 0) +
                        (if y.direction == d then y.amount else 0) + (if z.direction == d then z.amount else 0)
    ensures forall a :: LegsBalance([x, y, z], a) == Signed(x, a) + Signed(y, a) + Signed(z, a)
  {
    TwoLegs(x, y);
    assert [x, y, z][..2] == [x, y];
  }

  // ---- The commission split ------------------------------------------------------------------

  /** ValidateLegs never rejects a T1 posting, even when the product or a total wraps around. */
  lemma {:induction false} T1AlwaysValidates(kind: InvoiceType, client: Uuid, driver: Option<Uuid>, amount: int, cur: Currency, bps: int)
    requires Int64.InRange(amount) && (kind.RideFare? ==> driver.Some?)
    ensures Valid(cur, T1Legs(kind, client, driver, amount, cur, bps))
  {
    var legs := T1Legs(kind, client, driver, amount, cur, bps);
    if kind.CancellationFee? {
      TwoLegs(legs[0], legs[1]);
    } else {
      ThreeLegs(legs[0], legs[1], legs[2]);
      Int64.WrapAbsorbs(amount - Fee(amount, bps), Fee(amount, bps));
    }
  }

  /** A ride-fare split that the table stores adds up to the fare exactly, wrap-around or not. */
  lemma {:induction false} StoredSplitIsExact(amount: int, bps: int)
    requires Int64.InRange(amount) && amount > 0 && Fee(amount, bps) > 0 && Payable(amount, bps) > 0
    ensures Fee(amount, bps) + Payable(amount, bps) == amount
    ensures 0 < Fee(amount, bps) < amount
  {
    var k := Int64.WrapIsCongruent(amount - Fee(amount, bps));
  }

  /** Below the overflow bound the fee is the truncated commission and the driver gets the rest. */
  lemma {:induction false} SplitIsCommission(amount: int, bps: int)
    requires 0 <= bps <= 10000 && 0 <= amount <= Int64.MAX / 10000
    ensures Fee(amount, bps) == amount * bps / 10000
    ensures 0 <= Fee(amount, bps) <= amount
    ensures Payable(amount, bps) == amount - Fee(amount, bps)
  {
    ProductBound(amount, bps);
    ShareOf(amount, amount * bps);
  }

  lemma ProductBound(amount: int, bps: int)
    requires 0 <= bps <= 10000 && 0 <= amount
    ensures 0 <= amount * bps <= amount * 10000
  {
    assert amount * (10000 - bps) >= 0;
  }

  /** In range, the quotient is the plain one and no larger than the amount. */
  lemma ShareOf(amount: int, product: int)
    requires 0 <= product <= amount * 10000 && 0 <= amount <= Int64.MAX / 10000
    ensures var fee := Int64.QuoBps(Int64.Wrap(product));
      fee == product / 10000 && 0 <= fee <= amount && Int64.Wrap(amount - fee) == amount - fee
  {
    assert Int64.Wrap(product) == product;
  }

  /**
   * The T1 rows are stored exactly when both sides of the fare come out positive: for a ride fare when the
   * product that the machine keeps reaches one unit of commission and stays below the whole fare.
   */
  lemma T1StorableIff(kind: InvoiceType, client: Uuid, driver: Option<Uuid>, amount: int, cur: Currency, bps: int)
    requires Int64.InRange(amount) && (kind.RideFare? ==> driver.Some?)
    ensures Storable(T1Legs(kind, client, driver, amount, cur, bps)) <==>
            if kind.RideFare? then 10000 <= Int64.Wrap(amount * bps) < 10000 * amount else amount > 0
  {
    var legs := T1Legs(kind, client, driver, amount, cur, bps);
    if kind.RideFare? {
      assert Storable(legs) <==> legs[0].amount > 0 && legs[1].amount > 0 && legs[2].amount > 0;
      SharesPositiveIff(amount, Int64.Wrap(amount * bps));
    } else {
      assert Storable(legs) <==> legs[0].amount > 0 && legs[1].amount > 0;
    }
  }

  lemma SharesPositiveIff(amount: int, product: int)
    requires Int64.InRange(amount) && Int64.InRange(product)
    ensures var fee := Int64.QuoBps(product);
            (amount > 0 && fee > 0 && Int64.Wrap(amount - fee) > 0) <==> 10000 <= product < 10000 * amount
  {
  }

  lemma BelowWhole(amount: int, bps: int)
    requires 0 <= bps <= 10000 && 0 <= amount
    ensures amount * bps < 10000 * amount <==> bps < 10000 && amount > 0
  {
    assert 10000 * amount - amount * bps == amount * (10000 - bps);
    if bps < 10000 && amount > 0 {
      assert amount * (10000 - bps) > 0;
    }
  }

  lemma ShareInRange(amount: int, product: int)
    requires 0 <= amount <= Int64.MAX / 10000 && 0 <= product <= 10000 * amount
    ensures Int64.Wrap(product) == product
  {
  }

  /** Where the product does not wrap, that is at least one minor unit for each side. */
  lemma T1StorableInRange(client: Uuid, driver: Uuid, amount: int, cur: Currency, bps: int)
    requires 0 <= bps <= 10000 && 0 <= amount <= Int64.MAX / 10000
    ensures Storable(T1Legs(RideFare, client, Some(driver), amount, cur, bps)) <==> amount * bps >= 10000 && bps < 10000
  {
    T1StorableIff(RideFare, client, Some(driver), amount, cur, bps);
    ProductBound(amount, bps);
    ShareInRange(amount, amount * bps);
    BelowWhole(amount, bps);
  }

  /** A fare of four minor units at the default commission of 20% cannot be invoiced at all. */
  lemma SmallFareIsRefused(client: Uuid, driver: Uuid)
    ensures !Storable(T1Legs(RideFare, client, Some(driver), 4, "EUR", 2000))
  {
    T1StorableIff(RideFare, client, Some(driver), 4, "EUR", 2000);
  }
}
