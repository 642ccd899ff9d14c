// The provider's intent ids: the partial unique index keeps them apart in every run, so that a webhook's
// lookup has one answer.
module BillingIntents {
  import opened Wrappers
  import opened Clock
  import opened BillingTables
  import opened BillingCommands
  import opened BillingInvariant
  import opened BillingProtocol
  import BS = BillingService
  import ChargeOnce

  ghost predicate IntentsApart(payments: seq<Payment>) {
    forall p, q :: 0 <= p < q < |payments| && payments[p].intentId.Some? ==> payments[p].intentId != payments[q].intentId
  }

  /** Row `p` takes an intent id that no other row has, and other rows keep theirs. */
  lemma FreeIntentKeepsApart(rows: seq<Payment>, rows': seq<Payment>, p: nat, intent: string)
    requires IntentsApart(rows) && p < |rows| == |rows'| && !IntentTaken(rows, p, intent)
    requires rows'[p].intentId == Some(intent) || rows'[p].intentId == rows[p].intentId
    requires forall q :: 0 <= q < |rows| && q != p ==> rows'[q].intentId == rows[q].intentId
    ensures IntentsApart(rows')
  {
  }

  lemma SweepKeepsApart(cfg: Config, w: World, due: seq<Due>, now: Millis)
    requires IntentsApart(w.db.payments)
    ensures IntentsApart(Next(cfg, w, Sweep(due, now)).db.payments)
  {
    ChargeOnce.StepEffects(cfg, w, Sweep(due, now));
    var rows, rows' := w.db.payments, Next(cfg, w, Sweep(due, now)).db.payments;
    forall q | 0 <= q < |rows| ensures rows'[q].intentId == rows[q].intentId {
      assert ChargeOnce.RowEffect(w, Next(cfg, w, Sweep(due, now)), Sweep(due, now), q);
    }
    forall q | |rows| <= q < |rows'| ensures rows'[q].intentId.None? {
      assert ChargeOnce.Fresh(rows'[q]);
    }
  }

  lemma CommitKeepsApart(cfg: Config, w: World, p: nat, now: Millis)
    requires IntentsApart(w.db.payments)
    ensures IntentsApart(Next(cfg, w, Commit(p, now)).db.payments)
  {
    var rows, rows' := w.db.payments, Next(cfg, w, Commit(p, now)).db.payments;
    if rows' != rows {
      var o := w.finalizers[p].outcome;
      assert |rows'| == |rows| && rows' == rows[p := rows'[p]];
      if o.Charged? {
        FreeIntentKeepsApart(rows, rows', p, o.intent);
      } else {
        assert rows'[p].intentId == rows[p].intentId;
      }
    }
  }

  lemma MarkKeepsApart(cfg: Config, w: World, p: nat, intent: string)
    requires IntentsApart(w.db.payments)
    ensures IntentsApart(Next(cfg, w, MarkAsync(p, intent)).db.payments)
  {
    var rows, rows' := w.db.payments, Next(cfg, w, MarkAsync(p, intent)).db.payments;
    if rows' != rows {
      FreeIntentKeepsApart(rows, rows', p, intent);
    }
  }

  lemma {:induction false} RunKeepsApart(cfg: Config, steps: seq<Step>)
    ensures IntentsApart(Run(cfg, steps).db.payments)
  {
    if steps != [] {
      var n := |steps| - 1;
      var w, s := Run(cfg, steps[..n]), steps[n];
      RunKeepsApart(cfg, steps[..n]);
      if s.Sweep? {
        SweepKeepsApart(cfg, w, s.due, s.now);
      } else if s.Commit? {
        CommitKeepsApart(cfg, w, s.p, s.now);
      } else if s.MarkAsync? {
        MarkKeepsApart(cfg, w, s.p, s.intent);
      } else {
        assert Next(cfg, w, s).db.payments == w.db.payments;
      }
    }
  }

  /** In every reachable state the lookup by intent id finds the one payment that has it. */
  lemma {:induction false} LookupIsUnique(cfg: Config, steps: seq<Step>, intent: string, p: nat)
    ensures var rows := Run(cfg, steps).db.payments;
      BS.FindByIntent(rows, intent) == Some(p) <==> p < |rows| && rows[p].intentId == Some(intent)
  {
    RunKeepsApart(cfg, steps);
  }

  /** A second payment cannot take an intent id: the statement fails and changes nothing. */
  lemma TakenIntentIsRefused(cfg: Config, db: Tables, p: nat, q: nat, i: nat, intent: string, seen: InvoiceView, now: Millis)
    requires q < |db.payments| && q != p && db.payments[q].intentId == Some(intent) && i < |db.invoices|
    ensures p < |db.payments| && db.payments[p].status.Pending? ==> MarkProcessing(db, p, intent).RolledBack?
    ensures Unresolved(db, p) ==> FinalizeSucceeded(db, p, i, intent, seen, now, cfg).RolledBack?
  {
    assert IntentTaken(db.payments, p, intent);
  }
}
