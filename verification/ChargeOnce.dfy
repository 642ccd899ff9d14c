// The protocol together with a provider that keeps its word about each idempotency key: whatever the
// leases, resumes and duplicate resolutions, at most one attempt of an invoice is ever charged.
module ChargeOnce {
  import opened Wrappers
  import opened Clock
  import opened BillingTables
  import opened BillingCommands
  import opened BillingInvariant
  import opened BillingSteps
  import opened BillingProtocol

  datatype Verdict = Accepts | Refuses

  /** The provider decides each key once and opens one payment intent for it. */
  datatype Market = Market(w: World, verdicts: map<IdempotencyKey, Verdict>, intents: map<IdempotencyKey, string>)

  datatype Act =
    | Charge(c: Claim, v: Verdict, intent: string)          // a worker calls the provider
    | Settle(c: Claim, code: string)                        // and finalizes with the reported verdict
    | Await(c: Claim)                                       // or records that the outcome is pending
    | FailAtOnce(c: Claim)                                  // no payment method: nothing is charged
    | WebhookSettle(k: IdempotencyKey, p: nat, code: string)
    | WebhookAwait(k: IdempotencyKey, p: nat)
    | Internal(s: Step)

  function MInit(): Market {
    Market(Init(), map[], map[])
  }

  function Reported(m: Market, k: IdempotencyKey, code: string): Outcome
    requires k in m.verdicts && k in m.intents
  {
    if m.verdicts[k].Accepts? then Charged(m.intents[k]) else Declined(code)
  }

  predicate Known(m: Market, k: IdempotencyKey) {
    k in m.verdicts && k in m.intents
  }

  /** The webhook finds its payment through the intent id that the event carries. */
  predicate HasIntent(m: Market, k: IdempotencyKey, p: nat) {
    Known(m, k) && p < |m.w.db.payments| && m.w.db.payments[p].intentId == Some(m.intents[k])
  }

  predicate MEnabled(m: Market, a: Act) {
    match a
    case Charge(c, _, intent) =>
      c in m.w.claims && c.Chargeable? && (!Known(m, c.key) ==> intent !in m.intents.Values)
    case Settle(c, _) => c in m.w.claims && c.Chargeable? && Known(m, c.key)
    case Await(c) => c in m.w.claims && c.Chargeable? && Known(m, c.key)
    case FailAtOnce(c) => c in m.w.claims && c.Immediate?
    case WebhookSettle(k, p, _) => HasIntent(m, k, p)
    case WebhookAwait(k, p) => HasIntent(m, k, p)
    case Internal(s) => !s.Lock? && !s.MarkAsync?
  }

  /** The database step that an action performs, if any. */
  function StepOf(m: Market, a: Act): Option<Step>
    requires MEnabled(m, a)
  {
    match a
    case Charge(_, _, _) => None
    case Settle(c, code) => Some(Lock(c.paymentId, Reported(m, c.key, code)))
    case Await(c) => Some(MarkAsync(c.paymentId, m.intents[c.key]))
    case FailAtOnce(c) => Some(Lock(c.paymentId, Declined(NO_METHOD)))
    case WebhookSettle(k, p, code) => Some(Lock(p, Reported(m, k, code)))
    case WebhookAwait(k, p) => Some(MarkAsync(p, m.intents[k]))
    case Internal(s) => Some(s)
  }

  function MNext(cfg: Config, m: Market, a: Act): Market {
    if !MEnabled(m, a) then m
    else if a.Charge? then
      if Known(m, a.c.key) then m
      else m.(verdicts := m.verdicts[a.c.key := a.v], intents := m.intents[a.c.key := a.intent])
    else m.(w := Next(cfg, m.w, StepOf(m, a).value))
  }

  function MRun(cfg: Config, acts: seq<Act>): Market {
    if acts == [] then MInit() else MNext(cfg, MRun(cfg, acts[..|acts| - 1]), acts[|acts| - 1])
  }

  // ---- The invariant -------------------------------------------------------------------------

  predicate HasRow(db: Tables, k: IdempotencyKey) {
    exists p :: 0 <= p < |db.payments| && db.payments[p].key == k && db.payments[p].methodId.Some?
  }

  predicate RowBacked(m: Market, p: nat)
    requires p < |m.w.db.payments|
  {
    var row := m.w.db.payments[p];
    && (row.intentId.Some? ==> Known(m, row.key) && m.intents[row.key] == row.intentId.value)
    && (row.status.Failed? && row.methodId.Some? ==> Known(m, row.key) && m.verdicts[row.key].Refuses?)
    && (row.status.Succeeded? ==> Known(m, row.key) && m.verdicts[row.key].Accepts?)
  }

  /** What a finalizing transaction is about to write is what the provider decided for its key. */
  predicate OutcomeBacked(m: Market, p: nat, o: Outcome) {
    && p < |m.w.db.payments|
    && var row := m.w.db.payments[p];
    && match o
       case Charged(x) => Known(m, row.key) && m.verdicts[row.key].Accepts? && m.intents[row.key] == x
       case Declined(_) => row.methodId.None? || (Known(m, row.key) && m.verdicts[row.key].Refuses?)
  }

  ghost predicate Backed(m: Market) {
    && m.verdicts.Keys == m.intents.Keys
    && (forall k, k' :: k in m.intents && k' in m.intents && m.intents[k] == m.intents[k'] ==> k == k')
    && (forall k :: k in m.verdicts ==> HasRow(m.w.db, k))
    && (forall p :: 0 <= p < |m.w.db.payments| ==> RowBacked(m, p))
    && (forall p :: p in m.w.finalizers ==> OutcomeBacked(m, p, m.w.finalizers[p].outcome))
  }

  // ---- How steps change payment rows ---------------------------------------------------------

  /** Row `q` after a step: unchanged in the columns that matter here, or moved by its own commit or mark. */
  predicate RowEffect(w: World, w': World, s: Step, q: nat)
    requires q < |w.db.payments| && q < |w'.db.payments|
  {
    var a, b := w.db.payments[q], w'.db.payments[q];
    && SameTerms(b, a)
    && ((b.status == a.status && b.intentId == a.intentId)
        || (s.MarkAsync? && s.p == q && b.status.Processing? && b.intentId == Some(s.intent))
        || (s.Commit? && s.p == q && q in w.finalizers &&
            match w.finalizers[q].outcome
            case Charged(x) => b.status.Succeeded? && b.intentId == Some(x)
            case Declined(_) => b.status.Failed? && b.intentId == a.intentId))
  }

  predicate Fresh(row: Payment) {
    row.status.Pending? && row.intentId.None?
  }

  predicate RowEffects(w: World, w': World, s: Step) {
    && |w.db.payments| <= |w'.db.payments|
    && (forall q :: 0 <= q < |w.db.payments| ==> RowEffect(w, w', s, q))
    && (forall q :: |w.db.payments| <= q < |w'.db.payments| ==> Fresh(w'.db.payments[q]))
  }

  predicate BatchEffect(a: seq<Payment>, b: seq<Payment>) {
    && |a| <= |b|
    && (forall q :: 0 <= q < |a| ==> SameTerms(b[q], a[q]) && b[q].status == a[q].status && b[q].intentId == a[q].intentId)
    && (forall q :: |a| <= q < |b| ==> Fresh(b[q]))
  }

  lemma ClaimEffect(db: Tables, d: Due, now: Millis, lease: Millis)
    requires d.invoiceId < |db.invoices|
    ensures var r := ClaimOne(db, d, now, lease);
            !r.Aborted? ==> BatchEffect(db.payments, r.db.payments)
  {
  }

  lemma {:induction false} BatchEffects(db: Tables, due: seq<Due>, now: Millis, lease: Millis)
    requires ValidDue(db, due)
    ensures var r := ClaimBatch(db, due, now, lease);
            r.Batch? ==> BatchEffect(db.payments, r.db.payments)
  {
    if due != [] {
      var n := |due| - 1;
      BatchEffects(db, due[..n], now, lease);
      var before := ClaimBatch(db, due[..n], now, lease);
      if before.Batch? {
        ClaimEffect(before.db, due[n], now, lease);
      }
    }
  }

  lemma CommitEffects(cfg: Config, w: World, p: nat, now: Millis)
    requires Enabled(w, Commit(p, now))
    ensures RowEffects(w, Next(cfg, w, Commit(p, now)), Commit(p, now))
  {
    var r := CommitResult(cfg, w.db, p, w.finalizers[p], now);
    if r.Done? && r.db.payments != w.db.payments {
      assert r.db.payments == w.db.payments[p := r.db.payments[p]];
    }
  }

  lemma StepEffects(cfg: Config, w: World, s: Step)
    ensures RowEffects(w, Next(cfg, w, s), s)
  {
    if Enabled(w, s) {
      if s.Sweep? {
        BatchEffects(w.db, s.due, s.now, Lease(s.now, cfg));
      } else if s.Commit? {
        CommitEffects(cfg, w, s.p, s.now);
      }
    }
  }

  // ---- Every action keeps the provider and the tables in step --------------------------------

  /** The step that the provider's answers justify. */
  predicate Justified(m: Market, s: Step) {
    && (s.Lock? ==> OutcomeBacked(m, s.p, s.outcome))
    && (s.MarkAsync? && s.p < |m.w.db.payments| ==>
          var k := m.w.db.payments[s.p].key; Known(m, k) && m.intents[k] == s.intent)
  }

  lemma RowStaysBacked(m: Market, w': World, s: Step, p: nat)
    requires Justified(m, s) && p < |m.w.db.payments| <= |w'.db.payments|
    requires RowBacked(m, p) && RowEffect(m.w, w', s, p)
    requires p in m.w.finalizers ==> OutcomeBacked(m, p, m.w.finalizers[p].outcome)
    ensures RowBacked(m.(w := w'), p)
  {
  }

  lemma OutcomesStayBacked(cfg: Config, m: Market, s: Step)
    requires Backed(m) && Justified(m, s) && RowEffects(m.w, Next(cfg, m.w, s), s)
    ensures var m' := m.(w := Next(cfg, m.w, s));
            forall p :: p in m'.w.finalizers ==> OutcomeBacked(m', p, m'.w.finalizers[p].outcome)
  {
    var m' := m.(w := Next(cfg, m.w, s));
    forall p | p in m'.w.finalizers ensures OutcomeBacked(m', p, m'.w.finalizers[p].outcome) {
      assert OutcomeBacked(m, p, m'.w.finalizers[p].outcome);
      assert RowEffect(m.w, m'.w, s, p);
    }
  }

  lemma StepBacked(cfg: Config, m: Market, s: Step)
    requires Backed(m) && Justified(m, s)
    ensures Backed(m.(w := Next(cfg, m.w, s)))
  {
    var w' := Next(cfg, m.w, s);
    StepEffects(cfg, m.w, s);
    OutcomesStayBacked(cfg, m, s);
    forall k | k in m.verdicts ensures HasRow(w'.db, k) {
      var p :| 0 <= p < |m.w.db.payments| && m.w.db.payments[p].key == k && m.w.db.payments[p].methodId.Some?;
      assert RowEffect(m.w, w', s, p);
      assert w'.db.payments[p].key == k;
    }
    forall p | 0 <= p < |w'.db.payments| ensures RowBacked(m.(w := w'), p) {
      if p < |m.w.db.payments| {
        RowStaysBacked(m, w', s, p);
      }
    }
  }

  lemma ClaimRow(cfg: Config, m: Market, c: Claim)
    requires Sound(cfg, m.w) && c in m.w.claims
    ensures ClaimMatches(m.w.db, c)
  {
  }

  lemma ChargeBacked(cfg: Config, m: Market, c: Claim, v: Verdict, intent: string)
    requires Sound(cfg, m.w) && Backed(m) && MEnabled(m, Charge(c, v, intent))
    ensures Backed(MNext(cfg, m, Charge(c, v, intent)))
  {
    ClaimRow(cfg, m, c);
    var m' := MNext(cfg, m, Charge(c, v, intent));
    if !Known(m, c.key) {
      assert m.w.db.payments[c.paymentId].key == c.key;
      forall p | 0 <= p < |m.w.db.payments| ensures RowBacked(m', p) {
        assert RowBacked(m, p);
      }
      forall p | p in m'.w.finalizers ensures OutcomeBacked(m', p, m'.w.finalizers[p].outcome) {
        assert OutcomeBacked(m, p, m.w.finalizers[p].outcome);
      }
    }
  }

  lemma ActJustified(cfg: Config, m: Market, a: Act)
    requires Sound(cfg, m.w) && Backed(m) && MEnabled(m, a) && !a.Charge?
    ensures Justified(m, StepOf(m, a).value)
  {
    match a {
      case Settle(c, _) => ClaimRow(cfg, m, c);
      case Await(c) => ClaimRow(cfg, m, c);
      case FailAtOnce(c) => ClaimRow(cfg, m, c);
      case WebhookSettle(k, p, _) => assert RowBacked(m, p);
      case WebhookAwait(k, p) => assert RowBacked(m, p);
      case Internal(s) =>
    }
  }

  lemma {:induction false} MRunBacked(cfg: Config, acts: seq<Act>)
    ensures Sound(cfg, MRun(cfg, acts).w) && Backed(MRun(cfg, acts))
  {
    if acts == [] {
      InitSound(cfg);
    } else {
      var n := |acts| - 1;
      MRunBacked(cfg, acts[..n]);
      var m, a := MRun(cfg, acts[..n]), acts[n];
      if MEnabled(m, a) {
        if a.Charge? {
          ChargeBacked(cfg, m, a.c, a.v, a.intent);
        } else {
          ActJustified(cfg, m, a);
          StepBacked(cfg, m, StepOf(m, a).value);
          NextSound(cfg, m.w, StepOf(m, a).value);
        }
      }
    }
  }

  // ---- Results -------------------------------------------------------------------------------

  /** At most one attempt of an invoice is ever accepted by the provider. */
  lemma AtMostOneCharge(cfg: Config, acts: seq<Act>, k: IdempotencyKey, k': IdempotencyKey)
    requires var v := MRun(cfg, acts).verdicts; k in v && k' in v && v[k].Accepts? && v[k'].Accepts?
    requires k.invoiceId == k'.invoiceId
    ensures k == k'
  {
    MRunBacked(cfg, acts);
    var m := MRun(cfg, acts);
    var db := m.w.db;
    var p :| 0 <= p < |db.payments| && db.payments[p].key == k && db.payments[p].methodId.Some?;
    var q :| 0 <= q < |db.payments| && db.payments[q].key == k' && db.payments[q].methodId.Some?;
    assert RowMatches(db, p) && RowMatches(db, q);
    assert RowBacked(m, p) && RowBacked(m, q);
    assert OneAtATime(db);
  }

  /** The books tell the truth: a paid invoice was charged, a written-off one never was. */
  lemma BooksMatchProvider(cfg: Config, acts: seq<Act>, i: nat)
    requires i < |MRun(cfg, acts).w.db.invoices|
    ensures var m := MRun(cfg, acts);
      && (m.w.db.invoices[i].status.Paid? ==> exists k :: k in m.verdicts && k.invoiceId == i && m.verdicts[k].Accepts?)
      && (m.w.db.invoices[i].status.Uncollectible? ==>
            forall k :: k in m.verdicts && k.invoiceId == i ==> m.verdicts[k].Refuses?)
  {
    MRunBacked(cfg, acts);
    var m := MRun(cfg, acts);
    var db := m.w.db;
    assert ResolutionAgrees(db, i);
    if db.invoices[i].status.Paid? {
      var p: nat :| PaidBy(db, i, p);
      assert RowMatches(db, p) && RowBacked(m, p);
      assert db.payments[p].key in m.verdicts;
    }
    if db.invoices[i].status.Uncollectible? {
      forall k | k in m.verdicts && k.invoiceId == i ensures m.verdicts[k].Refuses? {
        var p :| 0 <= p < |db.payments| && db.payments[p].key == k && db.payments[p].methodId.Some?;
        assert RowMatches(db, p) && StatusAgrees(db, p) && RowBacked(m, p);
      }
    }
  }

  /** Every call to the provider asks for the amount and currency of the invoice, under the key of its payment row. */
  lemma ChargesTheInvoice(cfg: Config, acts: seq<Act>, c: Claim)
    requires c in MRun(cfg, acts).w.claims && c.Chargeable?
    ensures var db := MRun(cfg, acts).w.db;
      && c.invoiceId < |db.invoices| && c.key.invoiceId == c.invoiceId
      && c.amount == db.invoices[c.invoiceId].amount && c.currency == db.invoices[c.invoiceId].currency
  {
    MRunBacked(cfg, acts);
    ClaimRow(cfg, MRun(cfg, acts), c);
    assert RowMatches(MRun(cfg, acts).w.db, c.paymentId);
  }

  lemma IntentIsFree(m: Market, p: nat, intent: string)
    requires Backed(m) && RowsMatch(m.w.db) && OutcomeBacked(m, p, Charged(intent))
    ensures !IntentTaken(m.w.db.payments, p, intent)
  {
    KeysDistinct(m.w.db);
    forall q | 0 <= q < |m.w.db.payments| && q != p ensures m.w.db.payments[q].intentId != Some(intent) {
      assert RowBacked(m, q);
    }
  }

  /** With such a provider the unique index on intent ids never turns a success away. */
  lemma SuccessAlwaysCommits(cfg: Config, acts: seq<Act>, p: nat, now: Millis)
    requires var w := MRun(cfg, acts).w; Enabled(w, Commit(p, now)) && w.finalizers[p].outcome.Charged?
    ensures var w := MRun(cfg, acts).w;
      && CommitResult(cfg, w.db, p, w.finalizers[p], now).Done?
      && Next(cfg, w, Commit(p, now)).db.payments[p].status.Succeeded?
      && Next(cfg, w, Commit(p, now)).db.invoices[w.db.payments[p].invoiceId].status.Paid?
  {
    MRunBacked(cfg, acts);
    var m := MRun(cfg, acts);
    var f := m.w.finalizers[p];
    assert FinalizerSound(m.w.db, p, f) && OutcomeBacked(m, p, f.outcome);
    IntentIsFree(m, p, f.outcome.intent);
    SucceedKeepsGood(cfg, m.w.db, p, m.w.db.payments[p].invoiceId, f.outcome.intent, f.seen.value, now);
  }
}
