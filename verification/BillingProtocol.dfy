// The collection protocol as a state machine: any number of workers, webhook deliveries and invoice
// consumers, in any order, with crashes, expired leases and arbitrary provider answers.
//
// A finalizing transaction is three steps. `Lock` is the guarded update of the payment row, which holds
// that row's lock from then on. `Read` is GetByID, which looks at committed rows from outside the
// transaction. `Commit` is the rest. Other steps may run in between. A worker that crashes or is
// overtaken simply takes no further step, and a payment may be finalized by anyone at any time.
module BillingProtocol {
  import opened Wrappers
  import opened Clock
  import opened BillingTables
  import opened BillingCommands
  import opened BillingInvariant
  import opened BillingSteps
  import Int64

  datatype Outcome = Charged(intent: string) | Declined(code: string)
  datatype Finalizer = Finalizer(outcome: Outcome, seen: Option<InvoiceView>)

  /** The committed tables, every claim handed to a worker so far, and the open finalizing transactions. */
  datatype World = World(db: Tables, claims: set<Claim>, finalizers: map<nat, Finalizer>)

  datatype Step =
    | Create(cmd: RideCharge, now: Millis)
    | Sweep(due: seq<Due>, now: Millis)
    | Lock(p: nat, outcome: Outcome)
    | Read(p: nat)
    | Commit(p: nat, now: Millis)
    | Rollback(p: nat)
    | MarkAsync(p: nat, intent: string)
    | ClearSchedule(i: nat)

  function Init(): World {
    World(Tables([], [], [], []), {}, map[])
  }

  predicate IsDue(inv: Invoice, now: Millis) {
    inv.status.Open? && inv.nextAttemptAt.Some? && inv.nextAttemptAt.value <= now
  }

  /** Some rows of the sweep query: each invoice once, due, with an attempt count no newer than the table's. */
  predicate SweepRows(db: Tables, due: seq<Due>, now: Millis) {
    && ValidDue(db, due)
    && (forall k :: 0 <= k < |due| ==> IsDue(db.invoices[due[k].invoiceId], now) &&
                                       due[k].attemptCount <= AttemptCount(db.payments, due[k].invoiceId))
    && (forall j, k :: 0 <= j < k < |due| ==> due[j].invoiceId != due[k].invoiceId)
  }

  predicate Enabled(w: World, s: Step) {
    match s
    case Create(cmd, _) => Int64.InRange(cmd.amount) && (cmd.kind.RideFare? ==> cmd.driverId.Some?)
    case Sweep(due, now) => SweepRows(w.db, due, now)
    case Lock(p, _) => p !in w.finalizers && Unresolved(w.db, p)
    case Read(p) => p in w.finalizers && p < |w.db.payments| && w.db.payments[p].invoiceId < |w.db.invoices|
    case Commit(p, _) => p in w.finalizers && w.finalizers[p].seen.Some? &&
                         p < |w.db.payments| && w.db.payments[p].invoiceId < |w.db.invoices|
    case Rollback(p) => p in w.finalizers
    case MarkAsync(p, _) => p !in w.finalizers
    case ClearSchedule(_) => true
  }

  function Settle(w: World, r: TxResult): World {
    if r.Done? then w.(db := r.db) else w
  }

  function CommitResult(cfg: Config, db: Tables, p: nat, f: Finalizer, now: Millis): TxResult
    requires f.seen.Some? && p < |db.payments| && db.payments[p].invoiceId < |db.invoices|
  {
    match f.outcome
    case Charged(intent) => FinalizeSucceeded(db, p, db.payments[p].invoiceId, intent, f.seen.value, now, cfg)
    case Declined(code) => FinalizeFailed(db, p, db.payments[p].invoiceId, code, f.seen.value, now, cfg)
  }

  /** One step; a step that is not enabled changes nothing. */
  function Next(cfg: Config, w: World, s: Step): World {
    if !Enabled(w, s) then w
    else
      match s
      case Create(cmd, now) => Settle(w, CreateInvoice(w.db, cmd, now, cfg))
      case Sweep(due, now) =>
        (match ClaimBatch(w.db, due, now, Lease(now, cfg))
         case BatchRolledBack => w
         case Batch(db, claims) => w.(db := db, claims := w.claims + (set c | c in claims)))
      case Lock(p, outcome) => w.(finalizers := w.finalizers[p := Finalizer(outcome, None)])
      case Read(p) =>
        w.(finalizers := w.finalizers[p := w.finalizers[p].(seen := Some(View(w.db, w.db.payments[p].invoiceId)))])
      case Commit(p, now) =>
        Settle(w, CommitResult(cfg, w.db, p, w.finalizers[p], now)).(finalizers := w.finalizers - {p})
      case Rollback(p) => w.(finalizers := w.finalizers - {p})
      case MarkAsync(p, intent) => Settle(w, MarkProcessing(w.db, p, intent))
      case ClearSchedule(i) => w.(db := SetSchedule(w.db, i, None))
  }

  /** The state after a whole run. */
  function Run(cfg: Config, steps: seq<Step>): World {
    if steps == [] then Init() else Next(cfg, Run(cfg, steps[..|steps| - 1]), steps[|steps| - 1])
  }

  /** The state that `steps` lead to from `w`. */
  function RunFrom(cfg: Config, w: World, steps: seq<Step>): World {
    if steps == [] then w else Next(cfg, RunFrom(cfg, w, steps[..|steps| - 1]), steps[|steps| - 1])
  }

  // ---- The invariant over runs ---------------------------------------------------------------

  predicate FinalizerSound(db: Tables, p: nat, f: Finalizer) {
    && Unresolved(db, p)
    && (f.seen.Some? ==> Agrees(db, db.payments[p].invoiceId, f.seen.value))
  }

  ghost predicate Sound(cfg: Config, w: World) {
    && Good(cfg, w.db)
    && (forall c :: c in w.claims ==> ClaimMatches(w.db, c))
    && (forall p :: p in w.finalizers ==> FinalizerSound(w.db, p, w.finalizers[p]))
  }

  /** What another transaction may not change about an unresolved payment and its invoice. */
  predicate Undisturbed(db: Tables, db': Tables, p: nat)
    requires p < |db.payments|
  {
    var i := db.payments[p].invoiceId;
    && Unresolved(db', p) && db'.payments[p].invoiceId == i
    && i < |db.invoices| && i < |db'.invoices|
    && db'.invoices[i] == db.invoices[i].(nextAttemptAt := db'.invoices[i].nextAttemptAt)
    && AttemptCount(db'.payments, i) == AttemptCount(db.payments, i)
  }

  predicate RowsKept(db: Tables, db': Tables) {
    |db.payments| <= |db'.payments| &&
    forall q :: 0 <= q < |db.payments| ==> SameTerms(db'.payments[q], db.payments[q])
  }

  /** A transaction that disturbs no unresolved payment other than `except` keeps the run sound. */
  lemma StepSound(cfg: Config, w: World, db': Tables, except: set<nat>)
    requires Sound(cfg, w) && Good(cfg, db') && RowsKept(w.db, db')
    requires forall p :: Unresolved(w.db, p) && p !in except ==> Undisturbed(w.db, db', p)
    ensures Sound(cfg, w.(db := db', finalizers := w.finalizers - except))
  {
    forall p | p in w.finalizers - except ensures FinalizerSound(db', p, w.finalizers[p]) {
      assert FinalizerSound(w.db, p, w.finalizers[p]);
    }
    forall c | c in w.claims ensures ClaimMatches(db', c) {
      assert ClaimMatches(w.db, c);
    }
  }

  lemma CreateSound(cfg: Config, w: World, cmd: RideCharge, now: Millis)
    requires Sound(cfg, w) && Enabled(w, Create(cmd, now))
    ensures Sound(cfg, Next(cfg, w, Create(cmd, now)))
  {
    var r := CreateInvoice(w.db, cmd, now, cfg);
    CreateKeepsGood(cfg, w.db, cmd, now);
    if r.Done? {
      forall p: nat | Unresolved(w.db, p) ensures Undisturbed(w.db, r.db, p) {
        assert StatusAgrees(w.db, p);
      }
      StepSound(cfg, w, r.db, {});
      assert w.finalizers - {} == w.finalizers;
    }
  }

  /** What a finalizing transaction comes to. */
  lemma CommitKeepsGood(cfg: Config, w: World, p: nat, now: Millis)
    requires Sound(cfg, w) && Enabled(w, Commit(p, now))
    ensures var r := CommitResult(cfg, w.db, p, w.finalizers[p], now);
      r.Done? ==> Good(cfg, r.db) && Resolves(w.db, r.db, p, w.db.payments[p].invoiceId)
  {
    var f := w.finalizers[p];
    assert FinalizerSound(w.db, p, f);
    if f.outcome.Charged? {
      SucceedKeepsGood(cfg, w.db, p, w.db.payments[p].invoiceId, f.outcome.intent, f.seen.value, now);
    } else {
      FailKeepsGood(cfg, w.db, p, w.db.payments[p].invoiceId, f.outcome.code, f.seen.value, now);
    }
  }

  /** Resolving one payment disturbs no other unresolved one. */
  lemma ResolvingDisturbsNone(cfg: Config, db: Tables, db': Tables, p: nat, q: nat)
    requires Good(cfg, db) && p < |db.payments| && Resolves(db, db', p, db.payments[p].invoiceId)
    requires q != p && Unresolved(db, q)
    ensures Undisturbed(db, db', q)
  {
    assert StatusAgrees(db, q);
    UpdateKeepsRows(db, db', p);
    if db.payments[q].invoiceId == db.payments[p].invoiceId {
      OthersFailed(db, p, q);
    }
  }

  lemma CommitSound(cfg: Config, w: World, p: nat, now: Millis)
    requires Sound(cfg, w) && Enabled(w, Commit(p, now))
    ensures Sound(cfg, Next(cfg, w, Commit(p, now)))
  {
    var r := CommitResult(cfg, w.db, p, w.finalizers[p], now);
    CommitKeepsGood(cfg, w, p, now);
    if r.Done? {
      UpdateKeepsRows(w.db, r.db, p);
      forall q: nat | Unresolved(w.db, q) && q !in {p} ensures Undisturbed(w.db, r.db, q) {
        ResolvingDisturbsNone(cfg, w.db, r.db, p, q);
      }
      StepSound(cfg, w, r.db, {p});
    } else {
      forall q: nat | Unresolved(w.db, q) ensures Undisturbed(w.db, w.db, q) {
        assert StatusAgrees(w.db, q);
      }
      StepSound(cfg, w, w.db, {p});
    }
  }

  // ---- Sweeps --------------------------------------------------------------------------------

  /** What a sweep leaves alone: existing rows keep their terms and state, and busy invoices gain no row. */
  ghost predicate SweepFrame(db: Tables, db': Tables) {
    && db' == db.(payments := db'.payments) && RowsKept(db, db')
    && (forall q :: 0 <= q < |db.payments| ==> db'.payments[q].status == db.payments[q].status)
    && (forall i :: AttemptCount(db.payments, i) <= AttemptCount(db'.payments, i))
    && (forall i :: HasUnresolved(db, i) ==> AttemptCount(db.payments, i) == AttemptCount(db'.payments, i))
  }

  /** A claim renews the lease of the unresolved attempt. */
  lemma ResumeFrame(db: Tables, d: Due, now: Millis, lease: Millis)
    requires d.invoiceId < |db.invoices| && UnresolvedAttempt(db.payments, d.invoiceId).Some?
    ensures var db', p := ClaimOne(db, d, now, lease).db, UnresolvedAttempt(db.payments, d.invoiceId).value;
      !ClaimOne(db, d, now, lease).Aborted? &&
      (db' == db || db' == db.(payments := db.payments[p := db.payments[p].(claimedUntil := Some(lease))]))
  {
  }

  /** Or it starts the next attempt in a row of its own. */
  lemma StartFrame(db: Tables, d: Due, now: Millis, lease: Millis)
    requires d.invoiceId < |db.invoices| && UnresolvedAttempt(db.payments, d.invoiceId).None?
    requires !ClaimOne(db, d, now, lease).Aborted?
    ensures var db' := ClaimOne(db, d, now, lease).db;
      && |db'.payments| == |db.payments| + 1 && db'.payments[|db.payments|].invoiceId == d.invoiceId
      && db' == db.(payments := db.payments + [db'.payments[|db.payments|]])
  {
  }

  lemma RenewalFrame(db: Tables, p: nat, lease: Millis)
    requires p < |db.payments|
    ensures var db' := db.(payments := db.payments[p := db.payments[p].(claimedUntil := Some(lease))]);
      SweepFrame(db, db') && forall i :: AttemptCount(db.payments, i) == AttemptCount(db'.payments, i)
  {
    OwnersUpdated(db.payments, p, db.payments[p].(claimedUntil := Some(lease)));
  }

  lemma NewRowFrame(db: Tables, row: Payment)
    requires !HasUnresolved(db, row.invoiceId)
    ensures var db' := db.(payments := db.payments + [row]);
      SweepFrame(db, db') &&
      forall i :: i != row.invoiceId ==> AttemptCount(db.payments, i) == AttemptCount(db'.payments, i)
  {
    OwnersAppended(db.payments, row);
  }

  /** The rows after claiming differ from the rows before in one lease or one new row of the invoice. */
  lemma ClaimOneFrame(db: Tables, d: Due, now: Millis, lease: Millis)
    requires d.invoiceId < |db.invoices| && !ClaimOne(db, d, now, lease).Aborted?
    ensures SweepFrame(db, ClaimOne(db, d, now, lease).db)
    ensures forall i :: i != d.invoiceId ==>
              AttemptCount(db.payments, i) == AttemptCount(ClaimOne(db, d, now, lease).db.payments, i)
  {
    var existing := UnresolvedAttempt(db.payments, d.invoiceId);
    if existing.Some? {
      ResumeFrame(db, d, now, lease);
      RenewalFrame(db, existing.value, lease);
    } else {
      StartFrame(db, d, now, lease);
      NewRowFrame(db, ClaimOne(db, d, now, lease).db.payments[|db.payments|]);
    }
  }

  lemma FrameTrans(a: Tables, b: Tables, c: Tables)
    requires SweepFrame(a, b) && SweepFrame(b, c)
    ensures SweepFrame(a, c)
  {
    forall i | HasUnresolved(a, i) ensures AttemptCount(a.payments, i) == AttemptCount(c.payments, i) {
      var p :| 0 <= p < |a.payments| && a.payments[p].invoiceId == i && a.payments[p].NonTerminal();
      assert b.payments[p].NonTerminal() && b.payments[p].invoiceId == i;
    }
  }

  lemma MatchAcrossFrame(a: Tables, b: Tables, c: Claim)
    requires RowsKept(a, b) && ClaimMatches(a, c)
    ensures ClaimMatches(b, c)
  {
  }

  lemma ClaimsAcrossFrame(a: Tables, b: Tables, claims: seq<Claim>)
    requires RowsKept(a, b) && forall c :: c in claims ==> ClaimMatches(a, c)
    ensures forall c :: c in claims ==> ClaimMatches(b, c)
  {
    forall c | c in claims ensures ClaimMatches(b, c) {
      MatchAcrossFrame(a, b, c);
    }
  }

  predicate Covers(due: seq<Due>, i: nat) {
    exists k :: 0 <= k < |due| && due[k].invoiceId == i
  }

  ghost predicate SweptWell(cfg: Config, db: Tables, due: seq<Due>, db': Tables, claims: seq<Claim>) {
    && Good(cfg, db') && SweepFrame(db, db')
    && (forall c :: c in claims ==> ClaimMatches(db', c))
    && (forall i :: !Covers(due, i) ==> AttemptCount(db'.payments, i) == AttemptCount(db.payments, i))
  }

  /** One more invoice of the sweep. */
  lemma SweepOneMore(cfg: Config, db: Tables, due: seq<Due>, db1: Tables, claims: seq<Claim>, now: Millis, lease: Millis)
    requires due != [] && SweepRows(db, due, now) && SweptWell(cfg, db, due[..|due| - 1], db1, claims)
    requires !ClaimOne(db1, due[|due| - 1], now, lease).Aborted?
    ensures var r := ClaimOne(db1, due[|due| - 1], now, lease);
            SweptWell(cfg, db, due, r.db, if r.Claimed? then claims + [r.claim] else claims)
  {
    var n := |due| - 1;
    var r := ClaimOne(db1, due[n], now, lease);
    assert !Covers(due[..n], due[n].invoiceId);
    ClaimOneKeepsGood(cfg, db1, due[n], now, lease);
    ClaimOneFrame(db1, due[n], now, lease);
    FrameTrans(db, db1, r.db);
    ClaimsAcrossFrame(db1, r.db, claims);
    forall i: nat | !Covers(due, i) ensures AttemptCount(r.db.payments, i) == AttemptCount(db.payments, i) {
      assert due[n].invoiceId != i;
      assert forall k :: 0 <= k < n ==> due[..n][k] == due[k];
    }
  }

  /** A sweep keeps the state good; invoices outside it gain no attempt, and every claim repeats its row. */
  lemma {:induction false} SweepKeepsGood(cfg: Config, db: Tables, due: seq<Due>, now: Millis, lease: Millis)
    requires Good(cfg, db) && SweepRows(db, due, now)
    ensures var r := ClaimBatch(db, due, now, lease);
            r.Batch? ==> SweptWell(cfg, db, due, r.db, r.claims)
  {
    if due == [] {
      assert SweptWell(cfg, db, [], db, []);
    } else {
      var n := |due| - 1;
      assert SweepRows(db, due[..n], now);
      SweepKeepsGood(cfg, db, due[..n], now, lease);
      match ClaimBatch(db, due[..n], now, lease) {
        case BatchRolledBack =>
        case Batch(db1, claims) =>
          assert due[n].invoiceId < |db1.invoices|;
          match ClaimOne(db1, due[n], now, lease) {
            case Aborted =>
            case Skipped(db2) => SweepOneMore(cfg, db, due, db1, claims, now, lease);
            case Claimed(db2, c) => SweepOneMore(cfg, db, due, db1, claims, now, lease);
          }
      }
    }
  }

  lemma SweepSound(cfg: Config, w: World, due: seq<Due>, now: Millis)
    requires Sound(cfg, w) && Enabled(w, Sweep(due, now))
    ensures Sound(cfg, Next(cfg, w, Sweep(due, now)))
  {
    var lease := Lease(now, cfg);
    var r := ClaimBatch(w.db, due, now, lease);
    SweepKeepsGood(cfg, w.db, due, now, lease);
    if r.Batch? {
      forall p: nat | Unresolved(w.db, p) ensures Undisturbed(w.db, r.db, p) {
        assert StatusAgrees(w.db, p);
        assert HasUnresolved(w.db, w.db.payments[p].invoiceId);
      }
      StepSound(cfg, w, r.db, {});
      assert w.finalizers - {} == w.finalizers;
    }
  }

  lemma {:induction false} NextSound(cfg: Config, w: World, s: Step)
    requires Sound(cfg, w)
    ensures Sound(cfg, Next(cfg, w, s))
  {
    if Enabled(w, s) {
      match s {
        case Create(cmd, now) => CreateSound(cfg, w, cmd, now);
        case Sweep(due, now) => SweepSound(cfg, w, due, now);
        case Lock(p, outcome) =>
        case Read(p) =>
          assert FinalizerSound(w.db, p, w.finalizers[p]);
        case Commit(p, now) => CommitSound(cfg, w, p, now);
        case Rollback(p) =>
        case MarkAsync(p, intent) => MarkAsyncSound(cfg, w, p, intent);
        case ClearSchedule(i) => ClearScheduleSound(cfg, w, i);
      }
    }
  }

  lemma MarkAsyncSound(cfg: Config, w: World, p: nat, intent: string)
    requires Sound(cfg, w) && p !in w.finalizers
    ensures Sound(cfg, Settle(w, MarkProcessing(w.db, p, intent)))
  {
    var r := MarkProcessing(w.db, p, intent);
    MarkProcessingKeepsGood(cfg, w.db, p, intent);
    if r.Done? && r.db != w.db {
      OwnersUpdated(w.db.payments, p, r.db.payments[p]);
      forall q: nat | Unresolved(w.db, q) ensures Undisturbed(w.db, r.db, q) {
        assert StatusAgrees(w.db, q);
      }
      StepSound(cfg, w, r.db, {});
      assert w.finalizers - {} == w.finalizers;
    }
  }

  lemma ClearScheduleSound(cfg: Config, w: World, i: nat)
    requires Sound(cfg, w)
    ensures Sound(cfg, w.(db := SetSchedule(w.db, i, None)))
  {
    SetScheduleKeepsGood(cfg, w.db, i, None);
    forall q: nat | Unresolved(w.db, q) ensures Undisturbed(w.db, SetSchedule(w.db, i, None), q) {
      assert StatusAgrees(w.db, q);
    }
    StepSound(cfg, w, SetSchedule(w.db, i, None), {});
    assert w.finalizers - {} == w.finalizers;
  }

  lemma InitSound(cfg: Config)
    ensures Sound(cfg, Init())
  {
    forall i: nat ensures PostedOnce(Init().db, i) {
    }
  }

  lemma {:induction false} RunSound(cfg: Config, steps: seq<Step>)
    ensures Sound(cfg, Run(cfg, steps))
  {
    if steps == [] {
      InitSound(cfg);
    } else {
      RunSound(cfg, steps[..|steps| - 1]);
      NextSound(cfg, Run(cfg, steps[..|steps| - 1]), steps[|steps| - 1]);
    }
  }

  lemma {:induction false} RunFromSound(cfg: Config, w: World, steps: seq<Step>)
    requires Sound(cfg, w)
    ensures Sound(cfg, RunFrom(cfg, w, steps))
  {
    if steps != [] {
      RunFromSound(cfg, w, steps[..|steps| - 1]);
      NextSound(cfg, RunFrom(cfg, w, steps[..|steps| - 1]), steps[|steps| - 1]);
    }
  }
}
