// The attempt budget under any interleaving: workers, webhooks, other invoices and overlapping
// transactions may act at any moment, and still each invoice has only so much to go through.
module ChargeBudget {
  import opened Clock
  import opened BillingTables
  import opened BillingCommands
  import opened BillingInvariant
  import opened BillingSteps
  import opened BillingProtocol
  import opened Stranding
  import opened ChargeSweeps

  /** What invoice `i` still has ahead: two for each attempt allowed, one for an attempt under way. */
  function Left(cfg: Config, db: Tables, i: nat): int {
    if i >= |db.invoices| then 2 * Max(1, cfg.maxAttempts) else Work(cfg, db, i)
  }

  /** The step starts an attempt of invoice `i` or commits the outcome of one. */
  predicate Advances(cfg: Config, w: World, s: Step, i: nat) {
    Resolving(w, s, i) || AttemptCount(Next(cfg, w, s).db.payments, i) > AttemptCount(w.db.payments, i)
  }

  lemma UnresolvedIff(db: Tables, i: nat)
    ensures UnresolvedAttempt(db.payments, i).Some? <==> HasUnresolved(db, i)
  {
  }

  lemma LeftIsPositive(cfg: Config, db: Tables, i: nat)
    requires Good(cfg, db)
    ensures Left(cfg, db, i) >= 0 && (HasStatus(db, i, Open) ==> Left(cfg, db, i) >= 1)
    ensures Left(cfg, db, i) <= 2 * Max(1, cfg.maxAttempts)
  {
    UnresolvedIff(db, i);
    WorkIsBounded(cfg, db, i);
    if i < |db.invoices| {
      assert WithinBudget(cfg, db, i);
    }
  }

  // ---- What each step spends -----------------------------------------------------------------

  /** Rows that keep their state leave an invoice with what it had, and every new row of it costs. */
  lemma {:induction false} SweepSpends(cfg: Config, w: World, due: seq<Due>, now: Millis, i: nat)
    requires Sound(cfg, w) && Enabled(w, Sweep(due, now))
    ensures Left(cfg, Next(cfg, w, Sweep(due, now)).db, i) + One(Advances(cfg, w, Sweep(due, now), i)) <= Left(cfg, w.db, i)
  {
    SweepKeepsGood(cfg, w.db, due, now, Lease(now, cfg));
    var db' := Next(cfg, w, Sweep(due, now)).db;
    UnresolvedIff(w.db, i);
    UnresolvedIff(db', i);
    if ClaimBatch(w.db, due, now, Lease(now, cfg)).Batch? {
      if i >= |w.db.invoices| {
        NoRowsBeyond(w.db, i);
        NoRowsBeyond(db', i);
      } else if AttemptCount(db'.payments, i) == AttemptCount(w.db.payments, i) {
        NoNewRows(w.db, db', i);
      }
    }
  }

  lemma {:induction false} CreateSpends(cfg: Config, w: World, cmd: RideCharge, now: Millis, i: nat)
    requires Sound(cfg, w) && Enabled(w, Create(cmd, now))
    ensures Left(cfg, Next(cfg, w, Create(cmd, now)).db, i) + One(Advances(cfg, w, Create(cmd, now), i)) <= Left(cfg, w.db, i)
  {
    if i >= |w.db.invoices| {
      NoRowsBeyond(w.db, i);
      NextSound(cfg, w, Create(cmd, now));
      UnresolvedIff(w.db, i);
      CountPositive(w.db.payments, i);
    }
  }

  /** Committing an outcome closes the invoice or leaves it with nothing under way. */
  lemma {:induction false} OwnCommitSpends(cfg: Config, w: World, p: nat, now: Millis)
    requires Sound(cfg, w) && Enabled(w, Commit(p, now)) && Resolving(w, Commit(p, now), w.db.payments[p].invoiceId)
    ensures var i, db' := w.db.payments[p].invoiceId, Next(cfg, w, Commit(p, now)).db;
      Owners(db'.payments) == Owners(w.db.payments) && Left(cfg, db', i) + 1 <= Left(cfg, w.db, i)
  {
    var f, i := w.finalizers[p], w.db.payments[p].invoiceId;
    assert FinalizerSound(w.db, p, f);
    if f.outcome.Declined? {
      FailKeepsGood(cfg, w.db, p, i, f.outcome.code, f.seen.value, now);
    } else {
      SucceedKeepsGood(cfg, w.db, p, i, f.outcome.intent, f.seen.value, now);
    }
    var db' := Next(cfg, w, Commit(p, now)).db;
    UpdateKeepsRows(w.db, db', p);
    UnresolvedIff(w.db, i);
    assert HasUnresolved(w.db, i) && WithinBudget(cfg, w.db, i);
    OnlyOneUnderWay(w.db, db', p);
  }

  lemma OnlyOneUnderWay(db: Tables, db': Tables, p: nat)
    requires OneAtATime(db) && Unresolved(db, p) && RowUpdate(db, db', p) && !db'.payments[p].NonTerminal()
    ensures UnresolvedAttempt(db'.payments, db.payments[p].invoiceId).None?
  {
    forall q | 0 <= q < |db'.payments| && db'.payments[q].invoiceId == db.payments[p].invoiceId
      ensures !db'.payments[q].NonTerminal()
    {
      if q != p {
        OthersFailed(db, p, q);
      }
    }
  }

  /** A row that keeps its invoice and stays as unresolved as it was. */
  lemma RowUpdateSpends(cfg: Config, db: Tables, db': Tables, p: nat, i: nat)
    requires p < |db.payments| == |db'.payments| && db'.payments == db.payments[p := db'.payments[p]]
    requires db'.payments[p].invoiceId == db.payments[p].invoiceId && |db'.invoices| == |db.invoices|
    requires db.payments[p].invoiceId == i ==> db'.payments[p].NonTerminal() == db.payments[p].NonTerminal()
    requires i < |db.invoices| ==> db'.invoices[i].status == db.invoices[i].status
    ensures AttemptCount(db'.payments, i) == AttemptCount(db.payments, i) && Left(cfg, db', i) == Left(cfg, db, i)
  {
    OwnersUpdated(db.payments, p, db'.payments[p]);
    UnresolvedIff(db, i);
    UnresolvedIff(db', i);
    if HasUnresolved(db, i) {
      var q :| 0 <= q < |db.payments| && db.payments[q].invoiceId == i && db.payments[q].NonTerminal();
      assert db'.payments[q].invoiceId == i && db'.payments[q].NonTerminal();
    }
  }

  lemma {:induction false} CommitSpends(cfg: Config, w: World, p: nat, now: Millis, i: nat)
    requires Sound(cfg, w) && Enabled(w, Commit(p, now))
    ensures Left(cfg, Next(cfg, w, Commit(p, now)).db, i) + One(Advances(cfg, w, Commit(p, now), i)) <= Left(cfg, w.db, i)
  {
    var j := w.db.payments[p].invoiceId;
    var db' := Next(cfg, w, Commit(p, now)).db;
    CommitOutcome(cfg, w, p, now, j);
    if Resolving(w, Commit(p, now), j) {
      OwnCommitSpends(cfg, w, p, now);
      if i != j {
        CommitFrame(cfg, w, p, now);
        RowUpdateSpends(cfg, w.db, db', p, i);
      }
    } else {
      CommitRefused(cfg, w, p, now);
    }
  }

  lemma CommitRefused(cfg: Config, w: World, p: nat, now: Millis)
    requires Sound(cfg, w) && Enabled(w, Commit(p, now)) && !Resolving(w, Commit(p, now), w.db.payments[p].invoiceId)
    ensures Next(cfg, w, Commit(p, now)).db == w.db
  {
    assert FinalizerSound(w.db, p, w.finalizers[p]);
  }

  lemma CommitFrame(cfg: Config, w: World, p: nat, now: Millis)
    requires Sound(cfg, w) && Enabled(w, Commit(p, now))
    ensures var db, db', j := w.db, Next(cfg, w, Commit(p, now)).db, w.db.payments[p].invoiceId;
      && |db'.payments| == |db.payments| && db'.payments == db.payments[p := db'.payments[p]]
      && db'.payments[p].invoiceId == j
      && |db'.invoices| == |db.invoices| && db'.invoices == db.invoices[j := db'.invoices[j]]
  {
  }

  lemma {:induction false} MarkSpends(cfg: Config, w: World, p: nat, intent: string, i: nat)
    requires Sound(cfg, w) && Enabled(w, MarkAsync(p, intent))
    ensures Left(cfg, Next(cfg, w, MarkAsync(p, intent)).db, i) + One(Advances(cfg, w, MarkAsync(p, intent), i))
            <= Left(cfg, w.db, i)
  {
    var db' := Next(cfg, w, MarkAsync(p, intent)).db;
    if db' != w.db {
      RowUpdateSpends(cfg, w.db, db', p, i);
    }
  }

  /**
   * No step of anyone gives an invoice more to go through, and every attempt started for it and every
   * outcome committed for it uses some up.
   */
  lemma {:induction false} StepSpends(cfg: Config, w: World, s: Step, i: nat)
    requires Sound(cfg, w)
    ensures Left(cfg, Next(cfg, w, s).db, i) + One(Advances(cfg, w, s, i)) <= Left(cfg, w.db, i)
  {
    if Enabled(w, s) {
      match s {
        case Create(cmd, now) => CreateSpends(cfg, w, cmd, now, i);
        case Sweep(due, now) => SweepSpends(cfg, w, due, now, i);
        case Lock(p, outcome) =>
        case Read(p) =>
        case Commit(p, now) => CommitSpends(cfg, w, p, now, i);
        case Rollback(p) =>
        case MarkAsync(p, intent) => MarkSpends(cfg, w, p, intent, i);
        case ClearSchedule(j) =>
      }
    }
  }

  // ---- Whole runs ----------------------------------------------------------------------------

  /** How many steps of the run start an attempt of invoice `i` or commit the outcome of one. */
  function Effort(cfg: Config, w: World, steps: seq<Step>, i: nat): nat {
    if steps == [] then 0
    else
      var init := steps[..|steps| - 1];
      Effort(cfg, w, init, i) + One(Advances(cfg, RunFrom(cfg, w, init), steps[|steps| - 1], i))
  }

  lemma {:induction false} RunSpends(cfg: Config, w: World, steps: seq<Step>, i: nat)
    requires Sound(cfg, w)
    ensures Left(cfg, RunFrom(cfg, w, steps).db, i) + Effort(cfg, w, steps, i) <= Left(cfg, w.db, i)
  {
    if steps != [] {
      var n := |steps| - 1;
      RunSpends(cfg, w, steps[..n], i);
      RunFromSound(cfg, w, steps[..n]);
      StepSpends(cfg, RunFrom(cfg, w, steps[..n]), steps[n], i);
    }
  }

  lemma {:induction false} RunFromInit(cfg: Config, steps: seq<Step>)
    ensures RunFrom(cfg, Init(), steps) == Run(cfg, steps)
  {
    if steps != [] {
      RunFromInit(cfg, steps[..|steps| - 1]);
    }
  }

  /**
   * In every run, however interleaved, at most two steps for each allowed attempt start or finish attempts
   * of an invoice; a run with that many has settled it.
   */
  lemma {:induction false} EffortIsBounded(cfg: Config, steps: seq<Step>, i: nat)
    ensures var effort := Effort(cfg, Init(), steps, i);
      && effort <= 2 * Max(1, cfg.maxAttempts)
      && (effort == 2 * Max(1, cfg.maxAttempts) ==> !HasStatus(Run(cfg, steps).db, i, Open))
  {
    InitSound(cfg);
    RunSpends(cfg, Init(), steps, i);
    RunFromSound(cfg, Init(), steps);
    LeftIsPositive(cfg, Init().db, i);
    LeftIsPositive(cfg, RunFrom(cfg, Init(), steps).db, i);
    RunFromInit(cfg, steps);
  }

  // ---- Rounds with everyone else in between ----------------------------------------------------

  /** Any steps of anyone, and then a round of sweeping invoice `i`. */
  datatype Turn = Turn(others: seq<Step>, round: Round)

  function PlayTurns(cfg: Config, w: World, i: nat, turns: seq<Turn>): World {
    if turns == [] then w
    else
      var t := turns[|turns| - 1];
      PlayIfOpen(cfg, RunFrom(cfg, PlayTurns(cfg, w, i, turns[..|turns| - 1]), t.others), i, t.round)
  }

  /** Each round is ready when its turn comes. */
  ghost predicate TurnsReady(cfg: Config, w: World, i: nat, turns: seq<Turn>) {
    turns == [] ||
    var init, t := turns[..|turns| - 1], turns[|turns| - 1];
    TurnsReady(cfg, w, i, init) && Ready(RunFrom(cfg, PlayTurns(cfg, w, i, init), t.others), i, t.round)
  }

  /** Invoice `i` is settled, or the turns taken have used up as many attempts. */
  ghost predicate TurnsTaken(cfg: Config, w: World, i: nat, turns: nat) {
    && Sound(cfg, w) && i < |w.db.invoices|
    && (w.db.invoices[i].status.Open? ==> (Left(cfg, w.db, i) + 1) / 2 + turns <= Max(1, cfg.maxAttempts))
  }

  lemma OthersKeepTurns(cfg: Config, w: World, others: seq<Step>, i: nat, turns: nat)
    requires TurnsTaken(cfg, w, i, turns) && i < |RunFrom(cfg, w, others).db.invoices|
    ensures TurnsTaken(cfg, RunFrom(cfg, w, others), i, turns)
  {
    RunSpends(cfg, w, others, i);
    RunFromSound(cfg, w, others);
    LeftIsPositive(cfg, RunFrom(cfg, w, others).db, i);
  }

  /** A settled attempt that leaves the invoice open has used up an attempt. */
  lemma SettledCosts(cfg: Config, db: Tables, db': Tables, i: nat, accepted: bool)
    requires HasStatus(db, i, Open) && HasStatus(db', i, Open)
    requires Settled(cfg, AttemptCount(db.payments, i) + One(UnresolvedAttempt(db.payments, i).None?), db', i, accepted)
    ensures (Left(cfg, db', i) + 1) / 2 + 1 <= (Left(cfg, db, i) + 1) / 2
  {
    var m, n := Max(1, cfg.maxAttempts), AttemptCount(db.payments, i);
    var busy := UnresolvedAttempt(db.payments, i).Some?;
    assert Left(cfg, db, i) == 2 * (m - n) + One(busy);
    assert Left(cfg, db', i) == 2 * (m - n - One(!busy));
  }

  lemma RoundTakesTurn(cfg: Config, w: World, i: nat, r: Round, turns: nat)
    requires TurnsTaken(cfg, w, i, turns) && Ready(w, i, r)
    ensures TurnsTaken(cfg, PlayIfOpen(cfg, w, i, r), i, turns + 1)
  {
    if HasStatus(w.db, i, Open) {
      RoundSettles(cfg, w, i, r);
      var w' := Play(cfg, w, i, r);
      if HasStatus(w'.db, i, Open) {
        SettledCosts(cfg, w.db, w'.db, i, r.accepted);
      }
    }
  }

  lemma {:induction false} TurnsProgress(cfg: Config, w: World, i: nat, turns: seq<Turn>)
    requires Sound(cfg, w) && i < |w.db.invoices| && TurnsReady(cfg, w, i, turns)
    ensures TurnsTaken(cfg, PlayTurns(cfg, w, i, turns), i, |turns|)
  {
    if turns == [] {
      LeftIsPositive(cfg, w.db, i);
    } else {
      var n := |turns| - 1;
      var before := PlayTurns(cfg, w, i, turns[..n]);
      TurnsProgress(cfg, w, i, turns[..n]);
      OthersKeepTurns(cfg, before, turns[n].others, i, n);
      RoundTakesTurn(cfg, RunFrom(cfg, before, turns[n].others), i, turns[n].round, n);
    }
  }

  /**
   * From any reachable state, as many rounds as there are allowed attempts settle the invoice, with any
   * activity of webhooks, other workers and other invoices before each round.
   */
  lemma {:induction false} TurnsFinish(cfg: Config, steps: seq<Step>, i: nat, turns: seq<Turn>)
    requires i < |Run(cfg, steps).db.invoices| && TurnsReady(cfg, Run(cfg, steps), i, turns)
    requires |turns| >= Max(1, cfg.maxAttempts)
    ensures var db := PlayTurns(cfg, Run(cfg, steps), i, turns).db;
      HasStatus(db, i, Paid) || HasStatus(db, i, Uncollectible)
  {
    RunSound(cfg, steps);
    var w := Run(cfg, steps);
    TurnsProgress(cfg, w, i, turns);
    var w' := PlayTurns(cfg, w, i, turns);
    LeftIsPositive(cfg, w'.db, i);
    assert SoundInvoice(w'.db.invoices[i], cfg.commissionBps);
  }
}
