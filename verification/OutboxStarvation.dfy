// Rows that the worker has given up on stay at the head of the queue: for every setting, a run fills a
// whole batch with them, and then the rows behind are never claimed again.
module OutboxStarvation {
  import opened Wrappers
  import opened Clock
  import opened Outbox
  import opened OutboxTiming
  import opened OutboxEdge

  // ---- A batch of rows that keep failing, and one behind ----------------------------------------

  const FRESH := Row("event", false, 0, None)

  /** `n` rows tried `tried` times, the first `j` of them once more, and a fresh one behind. */
  function Queue(n: nat, tried: nat, j: nat, lease: Option<Millis>): (rows: seq<Row>)
    ensures |rows| == n + 1
  {
    seq(n + 1, i requires 0 <= i < n + 1 =>
      if i < n then Row("event", false, if i < j then tried + 1 else tried, lease) else FRESH)
  }

  /** The publishes that failed, `j` of the current round included. */
  function Failures(n: nat, tried: nat, j: nat): (t: seq<Tally>)
    ensures |t| == n + 1
  {
    seq(n + 1, i requires 0 <= i < n + 1 => Tally(0, if i < j then tried + 1 else if i < n then tried else 0, 0))
  }

  function Waiting(l: Limits, tried: nat, lease: Option<Millis>, now: Millis): State {
    State(now, Queue(l.config.batchSize, tried, 0, lease), Failures(l.config.batchSize, tried, 0), [Idle])
  }

  /** `j` rows of the batch have failed in this round. */
  function Failing(l: Limits, tried: nat, j: nat, lease: Millis, now: Millis): State
    requires j <= l.config.batchSize
  {
    var n := l.config.batchSize;
    State(now, Queue(n, tried, j, Some(lease)), Failures(n, tried, j), [Onward(l, now, Ids(j, n), lease)])
  }

  /** Row `j` has failed too, and the worker is about to record it. */
  function AboutToRecord(l: Limits, tried: nat, j: nat, lease: Millis, now: Millis): State
    requires j < l.config.batchSize
  {
    var n := l.config.batchSize;
    State(now, Queue(n, tried, j, Some(lease)), Failures(n, tried, j + 1),
          [Finalizing(Ids(j, n), false, lease, now + l.publishTimeout)])
  }

  // ---- One round of failures -------------------------------------------------------------------

  lemma {:induction false} SelectsFirst(rows: seq<Row>, now: Millis, limit: nat, k: nat)
    requires k <= |rows| && forall i :: 0 <= i < k ==> Due(rows[i], now)
    ensures Selected(rows, {}, now, limit, k) == Ids(0, if k < limit then k else limit)
  {
    if k > 0 {
      SelectsFirst(rows, now, limit, k - 1);
      if k <= limit {
        assert Ids(0, k) == Ids(0, k - 1) + [k - 1];
      }
    }
  }

  predicate Free(lease: Option<Millis>, now: Millis) {
    lease.None? || lease.value < now
  }

  /** The batch is selected, and the row behind it is not. */
  function Held(l: Limits, tried: nat, lease: Option<Millis>, now: Millis): State {
    Waiting(l, tried, lease, now).(workers := [Holding(Ids(0, l.config.batchSize), now)])
  }

  function ClaimedAt(l: Limits, tried: nat, lease: Millis, now: Millis): State {
    Waiting(l, tried, Some(lease), now).(workers := [Claimed(Ids(0, l.config.batchSize), lease, now + l.claimDelay)])
  }

  lemma RoundSelects(l: Limits, tried: nat, lease: Option<Millis>, now: Millis)
    requires Free(lease, now)
    ensures StepAt(l, Waiting(l, tried, lease, now), Select(0, now), Held(l, tried, lease, now))
  {
    var s, n := Waiting(l, tried, lease, now), l.config.batchSize;
    assert Locked(s.workers) == {};
    SelectsFirst(s.rows, now, n, n + 1);
  }

  lemma {:induction false} KeepsFirst(c: Outbox.Config, rows: seq<Row>, k: nat)
    requires k <= |rows| && forall i :: 0 <= i < k ==> !Parked(c, rows[i])
    ensures Unparked(c, rows, Ids(0, k)) == Ids(0, k)
  {
    if k > 0 {
      KeepsFirst(c, rows, k - 1);
      assert Ids(0, k)[..k - 1] == Ids(0, k - 1) && Ids(0, k) == Ids(0, k - 1) + [k - 1];
    }
  }

  lemma LeasesBatch(n: nat, tried: nat, was: Option<Millis>, lease: Millis)
    ensures Leased(Queue(n, tried, 0, was), Ids(0, n), lease) == Queue(n, tried, 0, Some(lease))
  {
    forall i: nat | i < n ensures i in Ids(0, n) {
      assert Ids(0, n)[i] == i;
    }
  }

  lemma BatchUnparked(l: Limits, tried: nat, was: Option<Millis>, now: Millis)
    requires tried < l.config.maxRetries
    ensures var n := l.config.batchSize;
      InTable(Ids(0, n), n + 1) && Unparked(l.config, Held(l, tried, was, now).rows, Ids(0, n)) == Ids(0, n)
  {
    KeepsFirst(l.config, Held(l, tried, was, now).rows, l.config.batchSize);
  }

  lemma BatchLeased(l: Limits, tried: nat, was: Option<Millis>, lease: Millis, now: Millis)
    ensures ClaimedAt(l, tried, lease, now).rows ==
            Leased(Held(l, tried, was, now).rows, Ids(0, l.config.batchSize), lease)
  {
    LeasesBatch(l.config.batchSize, tried, was, lease);
  }

  lemma RoundClaims(l: Limits, tried: nat, was: Option<Millis>, lease: Millis, now: Millis)
    requires tried < l.config.maxRetries && lease == Rfc3339(now + l.config.claimLease)
    ensures Claims(l, Held(l, tried, was, now), 0, Ids(0, l.config.batchSize), ClaimedAt(l, tried, lease, now), lease)
  {
    BatchUnparked(l, tried, was, now);
    BatchLeased(l, tried, was, lease, now);
  }

  lemma HeldShaped(l: Limits, tried: nat, was: Option<Millis>, now: Millis)
    ensures Shaped(Held(l, tried, was, now))
  {
  }

  lemma RoundStarts(l: Limits, tried: nat, lease: Millis, now: Millis)
    ensures StepAt(l, ClaimedAt(l, tried, lease, now), Start(0), Failing(l, tried, 0, lease, now))
  {
  }

  lemma FailStep(l: Limits, tried: nat, j: nat, lease: Millis, now: Millis)
    requires j < l.config.batchSize
    ensures StepAt(l, Failing(l, tried, j, lease, now), Publish(0, false, false), AboutToRecord(l, tried, j, lease, now))
  {
    var n := l.config.batchSize;
    assert Ids(j, n)[0] == j;
    assert Failures(n, tried, j)[j := Tally(0, tried + 1, 0)] == Failures(n, tried, j + 1);
  }

  lemma RecordStep(l: Limits, tried: nat, j: nat, lease: Millis, now: Millis)
    requires j < l.config.batchSize
    ensures StepAt(l, AboutToRecord(l, tried, j, lease, now), Finalize(0, true), Failing(l, tried, j + 1, lease, now))
  {
    var n, s := l.config.batchSize, AboutToRecord(l, tried, j, lease, now);
    assert Ids(j, n)[0] == j && Ids(j, n)[1..] == Ids(j + 1, n);
    assert Locked(s.workers) == {};
    assert s.rows[j := s.rows[j].(retries := tried + 1)] == Queue(n, tried, j + 1, Some(lease));
    assert s.tallies[j := s.tallies[j].(lost := 0)] == s.tallies;
  }

  lemma {:induction false} AllFail(l: Limits, tried: nat, j: nat, lease: Millis, now: Millis)
    requires j <= l.config.batchSize && Reachable(l, Failing(l, tried, 0, lease, now))
    ensures Reachable(l, Failing(l, tried, j, lease, now))
  {
    if j > 0 {
      AllFail(l, tried, j - 1, lease, now);
      FailStep(l, tried, j - 1, lease, now);
      Extend(l, Failing(l, tried, j - 1, lease, now), Publish(0, false, false), AboutToRecord(l, tried, j - 1, lease, now));
      RecordStep(l, tried, j - 1, lease, now);
      Extend(l, AboutToRecord(l, tried, j - 1, lease, now), Finalize(0, true), Failing(l, tried, j, lease, now));
    }
  }

  lemma RoundBegins(l: Limits, tried: nat, was: Option<Millis>, lease: Millis, now: Millis)
    requires 0 <= l.claimDelay && tried < l.config.maxRetries && Free(was, now)
    requires lease == Rfc3339(now + l.config.claimLease) && Reachable(l, Waiting(l, tried, was, now))
    ensures Reachable(l, Failing(l, tried, 0, lease, now))
  {
    RoundSelects(l, tried, was, now);
    Extend(l, Waiting(l, tried, was, now), Select(0, now), Held(l, tried, was, now));
    RoundClaims(l, tried, was, lease, now);
    HeldShaped(l, tried, was, now);
    ClaimReached(l, Held(l, tried, was, now), 0, Ids(0, l.config.batchSize), ClaimedAt(l, tried, lease, now), lease);
    RoundStarts(l, tried, lease, now);
    Extend(l, ClaimedAt(l, tried, lease, now), Start(0), Failing(l, tried, 0, lease, now));
  }

  /** When everything has failed once more, time passes until the leases are over. */
  lemma RoundEnds(l: Limits, tried: nat, lease: Millis, now: Millis, later: Millis)
    requires now <= later && Reachable(l, Failing(l, tried, l.config.batchSize, lease, now))
    ensures Reachable(l, Waiting(l, tried + 1, Some(lease), later))
  {
    var n := l.config.batchSize;
    assert Ids(n, n) == [];
    assert Queue(n, tried, n, Some(lease)) == Queue(n, tried + 1, 0, Some(lease));
    assert Failures(n, tried, n) == Failures(n, tried + 1, 0);
    Extend(l, Waiting(l, tried + 1, Some(lease), now), Tick(later - now), Waiting(l, tried + 1, Some(lease), later));
  }

  // ---- From the empty table to the full head ----------------------------------------------------

  function Filling(k: nat): State {
    State(0, seq(k, i => FRESH), seq(k, i => Tally(0, 0, 0)), [Idle])
  }

  lemma {:induction false} FillingReached(l: Limits, k: nat)
    ensures Reachable(l, Filling(k))
  {
    if k == 0 {
      Begins(l, Filling(0));
    } else {
      FillingReached(l, k - 1);
      assert Filling(k).rows == Filling(k - 1).rows + [FRESH];
      assert Filling(k).tallies == Filling(k - 1).tallies + [Tally(0, 0, 0)];
      Extend(l, Filling(k - 1), Insert("event"), Filling(k));
    }
  }

  lemma {:induction false} TriedReached(l: Limits, tried: nat) returns (lease: Option<Millis>, now: Millis)
    requires 0 <= l.claimDelay && tried <= l.config.maxRetries
    ensures Free(lease, now) && Reachable(l, Waiting(l, tried, lease, now))
  {
    if tried == 0 {
      lease, now := None, 0;
      FillingReached(l, l.config.batchSize + 1);
      assert Filling(l.config.batchSize + 1) == Waiting(l, 0, None, 0);
    } else {
      var was, at := TriedReached(l, tried - 1);
      var until := Rfc3339(at + l.config.claimLease);
      lease, now := Some(until), if until < at then at else until + 1;
      RoundBegins(l, tried - 1, was, until, at);
      AllFail(l, tried - 1, l.config.batchSize, until, at);
      RoundEnds(l, tried - 1, until, at, now);
    }
  }

  /** A row that was never tried stands behind a whole batch of rows that will not be tried again. */
  predicate Starved(l: Limits, s: State, i: nat) {
    && i < |s.rows| && s.rows[i] == FRESH
    && ParkedBefore(l.config, s.rows, {}, s.now, i) >= l.config.batchSize
  }

  lemma {:induction false} AllParked(c: Outbox.Config, rows: seq<Row>, now: Millis, k: nat)
    requires k <= |rows| && forall i :: 0 <= i < k ==> Due(rows[i], now) && Parked(c, rows[i])
    ensures ParkedBefore(c, rows, {}, now, k) == k
  {
    if k > 0 {
      AllParked(c, rows, now, k - 1);
    }
  }

  /** Whatever the settings, some run gets there: every publish of a batch fails `maxRetries` times. */
  lemma StarvationHappens(l: Limits)
    requires 0 <= l.claimDelay
    ensures exists s :: Reachable(l, s) && Starved(l, s, l.config.batchSize)
  {
    var n := l.config.batchSize;
    var lease, now := TriedReached(l, l.config.maxRetries);
    var s := Waiting(l, l.config.maxRetries, lease, now);
    AllParked(l.config, s.rows, now, n);
    assert Starved(l, s, n);
  }

  /** No tick that finds no row locked ever claims row `i`, however this run goes on. */
  ghost predicate StarvedFrom(l: Limits, run: seq<State>, i: nat) {
    forall run': seq<State>, steps': seq<Step>, m: nat :: Continues(l, run, run', steps') && |run| - 1 <= m < |run'| ==>
      i !in Batch(l.config, run'[m].rows, {}, run'[m].now)
  }

  ghost predicate Continues(l: Limits, run: seq<State>, run': seq<State>, steps': seq<Step>) {
    Run(l, run', steps') && run != [] && run <= run'
  }

  lemma {:induction false} StarvationLasts(l: Limits) returns (run: seq<State>, steps: seq<Step>)
    requires LeaseSuffices(l)
    ensures Run(l, run, steps) && Initial(run[0]) && Starved(l, run[|steps|], l.config.batchSize)
    ensures StarvedFrom(l, run, l.config.batchSize)
  {
    StarvationHappens(l);
    var s :| Reachable(l, s) && Starved(l, s, l.config.batchSize);
    run, steps :| LeadsTo(l, run, steps, s);
    forall run': seq<State>, steps': seq<Step>, m: nat | Continues(l, run, run', steps') && |run| - 1 <= m < |run'|
      ensures l.config.batchSize !in Batch(l.config, run'[m].rows, {}, run'[m].now)
    {
      assert run'[0] == run[0] && run'[|steps|] == run[|steps|];
      StarvedForever(l, run', steps', |steps|, m, l.config.batchSize);
    }
  }
}
