// Progress of collection: while the provider answers with a verdict and the rows it needs exist, sweeping
// an invoice again and again ends, within its attempt budget, in paid or uncollectible.
module ChargeSweeps {
  import opened Wrappers
  import opened Clock
  import opened BillingTables
  import opened BillingCommands
  import opened BillingInvariant
  import opened BillingSteps
  import opened BillingProtocol

  // ---- One round -----------------------------------------------------------------------------

  /** A sweep at `now` that reaches the provider and finalizes with its verdict. */
  datatype Round = Round(now: Millis, look: Lookup, accepted: bool, intent: string, code: string)

  predicate LeaseExpired(db: Tables, i: nat, now: Millis) {
    var p := UnresolvedAttempt(db.payments, i);
    p.Some? ==> !LeaseActive(db.payments[p.value].claimedUntil, now)
  }

  /** The conditions under which a round is not turned away, needed only while the invoice is open. */
  predicate Ready(w: World, i: nat, r: Round) {
    && i < |w.db.invoices|
    && (w.db.invoices[i].status.Open? ==>
          && Target(w.db, i) !in w.finalizers && IsDue(w.db.invoices[i], r.now) && LeaseExpired(w.db, i, r.now)
          && r.look.methodFound && r.look.customerFound
          && (r.accepted ==> forall q :: 0 <= q < |w.db.payments| ==> w.db.payments[q].intentId != Some(r.intent)))
  }

  function Verdict(r: Round): Outcome {
    if r.accepted then Charged(r.intent) else Declined(r.code)
  }

  /** The payment that the round's sweep claims. */
  function Target(db: Tables, i: nat): nat {
    var p := UnresolvedAttempt(db.payments, i);
    if p.Some? then p.value else |db.payments|
  }

  function Finish(cfg: Config, w: World, p: nat, o: Outcome, now: Millis): World {
    Next(cfg, Next(cfg, Next(cfg, w, Lock(p, o)), Read(p)), Commit(p, now))
  }

  /** Sweep, lock, read, commit. */
  function Play(cfg: Config, w: World, i: nat, r: Round): World {
    Finish(cfg, Next(cfg, w, Sweep([Due(i, AttemptCount(w.db.payments, i), r.look)], r.now)),
           Target(w.db, i), Verdict(r), r.now)
  }

  /** What is left to do for invoice `i`: two for each attempt still allowed, one for an attempt under way. */
  function Work(cfg: Config, db: Tables, i: nat): int {
    if !HasStatus(db, i, Open) then 0
    else 2 * (Max(1, cfg.maxAttempts) - AttemptCount(db.payments, i)) + One(UnresolvedAttempt(db.payments, i).Some?)
  }

  lemma SingleSweep(db: Tables, d: Due, now: Millis, lease: Millis)
    requires d.invoiceId < |db.invoices| && ClaimOne(db, d, now, lease).Claimed?
    ensures var r := ClaimOne(db, d, now, lease);
            ClaimBatch(db, [d], now, lease) == Batch(r.db, [r.claim])
  {
    assert [d][..0] == [];
  }

  /** The rows after a claim for invoice `i`, as far as finalizing looks at them. */
  predicate ClaimedFor(db: Tables, db': Tables, i: nat, p: nat) {
    && Unresolved(db', p) && db'.payments[p].invoiceId == i && db'.invoices == db.invoices
    && AttemptCount(db'.payments, i) == AttemptCount(db.payments, i) + One(UnresolvedAttempt(db.payments, i).None?)
    && forall q :: 0 <= q < |db'.payments| && db'.payments[q].intentId.Some? ==>
         q < |db.payments| && db'.payments[q].intentId == db.payments[q].intentId
  }

  /** A ready claim always yields something to finalize. */
  lemma ReadyClaims(cfg: Config, w: World, i: nat, r: Round)
    requires Sound(cfg, w) && Ready(w, i, r) && w.db.invoices[i].status.Open?
    ensures var d := Due(i, AttemptCount(w.db.payments, i), r.look);
            var c := ClaimOne(w.db, d, r.now, Lease(r.now, cfg));
            c.Claimed? && ClaimedFor(w.db, c.db, i, Target(w.db, i))
  {
    var d := Due(i, AttemptCount(w.db.payments, i), r.look);
    var lease := Lease(r.now, cfg);
    ClaimOneKeepsGood(cfg, w.db, d, r.now, lease);
    var c := ClaimOne(w.db, d, r.now, lease);
    var existing := UnresolvedAttempt(w.db.payments, i);
    if existing.Some? {
      OwnersUpdated(w.db.payments, existing.value, c.db.payments[existing.value]);
    } else {
      OwnersAppended(w.db.payments, c.db.payments[|w.db.payments|]);
    }
  }

  lemma SweepPhase(cfg: Config, w: World, i: nat, r: Round)
    requires Sound(cfg, w) && Ready(w, i, r) && w.db.invoices[i].status.Open?
    ensures var w1 := Next(cfg, w, Sweep([Due(i, AttemptCount(w.db.payments, i), r.look)], r.now));
            Sound(cfg, w1) && w1.finalizers == w.finalizers && ClaimedFor(w.db, w1.db, i, Target(w.db, i))
  {
    var d := Due(i, AttemptCount(w.db.payments, i), r.look);
    ReadyClaims(cfg, w, i, r);
    SingleSweep(w.db, d, r.now, Lease(r.now, cfg));
    NextSound(cfg, w, Sweep([d], r.now));
  }

  /** The finalizing transaction of `p` holds its lock and has read its invoice. */
  function Prepared(w: World, p: nat, o: Outcome, i: nat): World
    requires i < |w.db.invoices|
  {
    w.(finalizers := w.finalizers[p := Finalizer(o, Some(View(w.db, i)))])
  }

  lemma LockAndRead(cfg: Config, w: World, p: nat, o: Outcome)
    requires Sound(cfg, w) && p !in w.finalizers && Unresolved(w.db, p)
    ensures w.db.payments[p].invoiceId < |w.db.invoices|
    ensures Next(cfg, Next(cfg, w, Lock(p, o)), Read(p)) ==
            Prepared(w, p, o, w.db.payments[p].invoiceId)
    ensures Sound(cfg, Prepared(w, p, o, w.db.payments[p].invoiceId))
  {
    assert StatusAgrees(w.db, p);
    NextSound(cfg, w, Lock(p, o));
    NextSound(cfg, Next(cfg, w, Lock(p, o)), Read(p));
  }

  /** Invoice `i` with `n` attempts is settled as the provider decided, and nothing is left under way. */
  predicate Settled(cfg: Config, n: nat, db': Tables, i: nat, accepted: bool) {
    && i < |db'.invoices| && UnresolvedAttempt(db'.payments, i).None?
    && AttemptCount(db'.payments, i) == n
    && if accepted then db'.invoices[i].status.Paid?
       else if n < cfg.maxAttempts
       then db'.invoices[i].status.Open? && db'.invoices[i].nextAttemptAt.Some?
       else db'.invoices[i].status.Uncollectible?
  }

  lemma CommitPhase(cfg: Config, db: Tables, p: nat, i: nat, o: Outcome, now: Millis)
    requires Good(cfg, db) && Unresolved(db, p) && db.payments[p].invoiceId == i && i < |db.invoices|
    requires o.Charged? ==> !IntentTaken(db.payments, p, o.intent)
    ensures var r := CommitResult(cfg, db, p, Finalizer(o, Some(View(db, i))), now);
            r.Done? && Settled(cfg, AttemptCount(db.payments, i), r.db, i, o.Charged?)
  {
    var r := CommitResult(cfg, db, p, Finalizer(o, Some(View(db, i))), now);
    match o {
      case Charged(intent) => SucceedKeepsGood(cfg, db, p, i, intent, View(db, i), now);
      case Declined(code) => FailKeepsGood(cfg, db, p, i, code, View(db, i), now);
    }
    UpdateKeepsRows(db, r.db, p);
    forall q | 0 <= q < |r.db.payments| && r.db.payments[q].invoiceId == i ensures !r.db.payments[q].NonTerminal() {
      if q != p {
        OthersFailed(db, p, q);
      }
    }
  }

  lemma FinishPhase(cfg: Config, w: World, p: nat, i: nat, o: Outcome, now: Millis)
    requires Sound(cfg, w) && p !in w.finalizers && Unresolved(w.db, p) && w.db.payments[p].invoiceId == i
    requires o.Charged? ==> !IntentTaken(w.db.payments, p, o.intent)
    ensures var w' := Finish(cfg, w, p, o, now);
      Sound(cfg, w') && w'.finalizers == w.finalizers && Settled(cfg, AttemptCount(w.db.payments, i), w'.db, i, o.Charged?)
  {
    LockAndRead(cfg, w, p, o);
    FinishCommit(cfg, Prepared(w, p, o, i), p, i, o, now);
    assert Prepared(w, p, o, i).finalizers - {p} == w.finalizers;
  }

  lemma FinishCommit(cfg: Config, w: World, p: nat, i: nat, o: Outcome, now: Millis)
    requires Sound(cfg, w) && Unresolved(w.db, p) && w.db.payments[p].invoiceId == i < |w.db.invoices|
    requires p in w.finalizers && w.finalizers[p] == Finalizer(o, Some(View(w.db, i)))
    requires o.Charged? ==> !IntentTaken(w.db.payments, p, o.intent)
    ensures var w' := Next(cfg, w, Commit(p, now));
      && Sound(cfg, w') && w'.finalizers == w.finalizers - {p}
      && Settled(cfg, AttemptCount(w.db.payments, i), w'.db, i, o.Charged?)
  {
    NextSound(cfg, w, Commit(p, now));
    CommitPhase(cfg, w.db, p, i, o, now);
  }

  /** A ready round settles its attempt. */
  lemma RoundSettles(cfg: Config, w: World, i: nat, r: Round)
    requires Sound(cfg, w) && Ready(w, i, r) && w.db.invoices[i].status.Open?
    ensures var w' := Play(cfg, w, i, r);
      && Sound(cfg, w') && w'.finalizers == w.finalizers
      && Settled(cfg, AttemptCount(w.db.payments, i) + One(UnresolvedAttempt(w.db.payments, i).None?), w'.db, i, r.accepted)
  {
    SweepPhase(cfg, w, i, r);
    var w1 := Next(cfg, w, Sweep([Due(i, AttemptCount(w.db.payments, i), r.look)], r.now));
    FinishPhase(cfg, w1, Target(w.db, i), i, Verdict(r), r.now);
  }

  // ---- Many rounds ---------------------------------------------------------------------------

  function PlayIfOpen(cfg: Config, w: World, i: nat, r: Round): World {
    if HasStatus(w.db, i, Open) then Play(cfg, w, i, r) else w
  }

  /** What one round makes of a state. */
  type Player = (World, Round) -> World

  function PlayerOf(cfg: Config, i: nat): Player {
    (w: World, r: Round) => PlayIfOpen(cfg, w, i, r)
  }

  function PlayAll(play: Player, w: World, rounds: seq<Round>): World {
    if rounds == [] then w
    else play(PlayAll(play, w, rounds[..|rounds| - 1]), rounds[|rounds| - 1])
  }

  /** Each round was ready when its turn came. */
  ghost predicate AllReady(play: Player, w: World, i: nat, rounds: seq<Round>) {
    rounds == [] ||
    var init := rounds[..|rounds| - 1];
    AllReady(play, w, i, init) && Ready(PlayAll(play, w, init), i, rounds[|rounds| - 1])
  }

  /** What is known after some rounds on an invoice that was open before them. */
  ghost predicate Progressed(cfg: Config, w: World, w': World, i: nat, rounds: seq<Round>) {
    && Sound(cfg, w') && i < |w'.db.invoices|
    && match w'.db.invoices[i].status
       case Open =>
         && Work(cfg, w'.db, i) + 2 * |rounds| <= Work(cfg, w.db, i) + 1
         && (rounds != [] ==> UnresolvedAttempt(w'.db.payments, i).None?)
         && (forall k :: 0 <= k < |rounds| ==> !rounds[k].accepted)
       case Paid => exists k :: 0 <= k < |rounds| && rounds[k].accepted
       case _ => w'.db.invoices[i].status.Uncollectible?
  }

  lemma OneMoreRound(cfg: Config, w: World, before: World, i: nat, rounds: seq<Round>, r: Round)
    requires Progressed(cfg, w, before, i, rounds) && before.db.invoices[i].status.Open? && Ready(before, i, r)
    requires rounds == [] ==> before == w
    ensures Progressed(cfg, w, Play(cfg, before, i, r), i, rounds + [r])
  {
    RoundSettles(cfg, before, i, r);
    var w' := Play(cfg, before, i, r);
    var all := rounds + [r];
    assert all[|rounds|] == r;
    assert forall k :: 0 <= k < |rounds| ==> all[k] == rounds[k];
  }

  lemma ClosedStays(cfg: Config, w: World, before: World, i: nat, rounds: seq<Round>, r: Round)
    requires Progressed(cfg, w, before, i, rounds) && !before.db.invoices[i].status.Open?
    ensures Progressed(cfg, w, before, i, rounds + [r])
  {
    var all := rounds + [r];
    assert forall k :: 0 <= k < |rounds| ==> all[k] == rounds[k];
  }

  /** One more ready round keeps up the progress. */
  ghost predicate KeepsProgress(cfg: Config, play: Player, w: World, i: nat, before: World, rounds: seq<Round>, r: Round) {
    Progressed(cfg, w, before, i, rounds) && Ready(before, i, r) && (rounds == [] ==> before == w) ==>
      Progressed(cfg, w, play(before, r), i, rounds + [r])
  }

  lemma NextRound(cfg: Config, w: World, i: nat, before: World, rounds: seq<Round>, r: Round)
    ensures KeepsProgress(cfg, PlayerOf(cfg, i), w, i, before, rounds, r)
  {
    if Progressed(cfg, w, before, i, rounds) && Ready(before, i, r) && (rounds == [] ==> before == w) {
      if before.db.invoices[i].status.Open? {
        OneMoreRound(cfg, w, before, i, rounds, r);
      } else {
        ClosedStays(cfg, w, before, i, rounds, r);
      }
    }
  }

  lemma {:induction false} RoundsProgress(cfg: Config, play: Player, w: World, i: nat, rounds: seq<Round>)
    requires Sound(cfg, w) && AllReady(play, w, i, rounds) && HasStatus(w.db, i, Open)
    requires forall before, rounds, r :: KeepsProgress(cfg, play, w, i, before, rounds, r)
    ensures Progressed(cfg, w, PlayAll(play, w, rounds), i, rounds)
  {
    if rounds != [] {
      var n := |rounds| - 1;
      RoundsProgress(cfg, play, w, i, rounds[..n]);
      assert KeepsProgress(cfg, play, w, i, PlayAll(play, w, rounds[..n]), rounds[..n], rounds[n]);
      assert rounds[..n] + [rounds[n]] == rounds;
    }
  }

  /** An open invoice with nothing under way always has a whole attempt left. */
  lemma OpenHasWork(cfg: Config, db: Tables, i: nat)
    requires Good(cfg, db)
    ensures HasStatus(db, i, Open) && UnresolvedAttempt(db.payments, i).None? ==> Work(cfg, db, i) >= 2
  {
    if HasStatus(db, i, Open) {
      assert WithinBudget(cfg, db, i);
    }
  }

  lemma WorkIsBounded(cfg: Config, db: Tables, i: nat)
    requires Good(cfg, db)
    ensures Work(cfg, db, i) <= 2 * Max(1, cfg.maxAttempts)
  {
    CountPositive(db.payments, i);
  }

  /** From any reachable state, as many ready rounds as there are allowed attempts resolve the invoice. */
  lemma {:induction false} SweepsFinish(cfg: Config, steps: seq<Step>, i: nat, rounds: seq<Round>)
    requires var w := Run(cfg, steps); HasStatus(w.db, i, Open) && AllReady(PlayerOf(cfg, i), w, i, rounds)
    requires |rounds| >= Max(1, cfg.maxAttempts)
    ensures var db := PlayAll(PlayerOf(cfg, i), Run(cfg, steps), rounds).db;
            if HasStatus(db, i, Paid) then exists k :: 0 <= k < |rounds| && rounds[k].accepted
            else HasStatus(db, i, Uncollectible)
  {
    RunSound(cfg, steps);
    var w := Run(cfg, steps);
    var play := PlayerOf(cfg, i);
    forall before, rounds, r ensures KeepsProgress(cfg, play, w, i, before, rounds, r) {
      NextRound(cfg, w, i, before, rounds, r);
    }
    RoundsProgress(cfg, play, w, i, rounds);
    OpenHasWork(cfg, PlayAll(play, w, rounds).db, i);
    WorkIsBounded(cfg, w.db, i);
  }

  /** A scheduled open invoice becomes due, with its lease expired, from some moment on. */
  lemma DueEventually(db: Tables, i: nat) returns (from: Millis)
    requires i < |db.invoices| && db.invoices[i].status.Open? && db.invoices[i].nextAttemptAt.Some?
    ensures forall now :: now >= from ==> IsDue(db.invoices[i], now) && LeaseExpired(db, i, now)
  {
    from := db.invoices[i].nextAttemptAt.value;
    var p := UnresolvedAttempt(db.payments, i);
    if p.Some? && db.payments[p.value].claimedUntil.Some? {
      from := Max(from, db.payments[p.value].claimedUntil.value);
    }
  }
}
