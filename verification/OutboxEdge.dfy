// How sharp the outbox's lease bound is: for every setting, one millisecond below it two workers can
// meet on a row.
module OutboxEdge {
  import opened Wrappers
  import opened Clock
  import opened Outbox
  import opened OutboxTiming

  // ---- Reaching a state ----------------------------------------------------------------------

  /** Some run leads from an empty table to this state. */
  ghost predicate Reachable(l: Limits, s: State) {
    exists run, steps :: LeadsTo(l, run, steps, s)
  }

  ghost predicate LeadsTo(l: Limits, run: seq<State>, steps: seq<Step>, s: State) {
    Run(l, run, steps) && Initial(run[0]) && run[|steps|] == s
  }

  lemma Begins(l: Limits, s: State)
    requires Initial(s)
    ensures Reachable(l, s)
  {
    assert LeadsTo(l, [s], [], s);
  }

  lemma Extend(l: Limits, s: State, step: Step, s': State)
    requires Reachable(l, s) && StepAt(l, s, step, s')
    ensures Reachable(l, s')
  {
    var run, steps :| LeadsTo(l, run, steps, s);
    var run', steps' := run + [s'], steps + [step];
    forall k | 0 <= k < |steps'| ensures StepAt(l, run'[k], steps'[k], run'[k + 1]) {
      if k < |steps| {
        assert StepAt(l, run[k], steps[k], run[k + 1]);
      }
    }
    assert LeadsTo(l, run', steps', s');
  }

  // ---- A table of like rows --------------------------------------------------------------------

  /** `n` rows, the first `done` of them processed, all with the same lease. */
  function Rows(n: nat, done: nat, lease: Option<Millis>): (rows: seq<Row>)
    ensures |rows| == n
  {
    seq(n, i requires 0 <= i < n => Row("event", i < done, 0, lease))
  }

  /** One delivery for each of the first `sent` rows. */
  function Tallies(n: nat, sent: nat): (t: seq<Tally>)
    ensures |t| == n
  {
    seq(n, i requires 0 <= i < n => Tally(if i < sent then 1 else 0, 0, 0))
  }

  function Ids(from: nat, to: nat): (ids: seq<nat>)
    requires from <= to
    ensures |ids| == to - from && InTable(ids, to)
  {
    seq(to - from, k requires 0 <= k < to - from => from + k)
  }

  lemma {:induction false} SelectsFrom(rows: seq<Row>, now: Millis, limit: nat, from: nat, k: nat)
    requires from <= k <= |rows| && k - from <= limit
    requires forall i :: 0 <= i < k ==> (Due(rows[i], now) <==> from <= i)
    ensures Selected(rows, {}, now, limit, k) == Ids(from, k)
    decreases k
  {
    if from < k {
      SelectsFrom(rows, now, limit, from, k - 1);
      assert Ids(from, k) == Ids(from, k - 1) + [k - 1];
    } else {
      SelectsNone(rows, now, limit, k);
    }
  }

  lemma {:induction false} SelectsNone(rows: seq<Row>, now: Millis, limit: nat, k: nat)
    requires k <= |rows| && forall i :: 0 <= i < k ==> !Due(rows[i], now)
    ensures Selected(rows, {}, now, limit, k) == []
  {
    if k > 0 {
      SelectsNone(rows, now, limit, k - 1);
    }
  }

  lemma {:induction false} KeepsAll(c: Outbox.Config, rows: seq<Row>, ids: seq<nat>)
    requires InTable(ids, |rows|) && forall i :: 0 <= i < |rows| ==> !Parked(c, rows[i])
    ensures Unparked(c, rows, ids) == ids
  {
    if ids != [] {
      KeepsAll(c, rows, ids[..|ids| - 1]);
      assert ids == ids[..|ids| - 1] + [ids[|ids| - 1]];
    }
  }

  // ---- The run below the bound -----------------------------------------------------------------

  predicate Sane(l: Limits) {
    0 <= l.publishTimeout && 0 <= l.claimDelay && l.config.batchSize > 0 && l.config.maxRetries > 0
  }

  /** A claim made at this moment ends its lease at 0, having lost 999 milliseconds of it. */
  function WorstMoment(l: Limits): Millis {
    SECOND - 1 - l.config.claimLease
  }

  lemma LeaseEndsAtZero(l: Limits)
    ensures Rfc3339(WorstMoment(l) + l.config.claimLease) == 0
  {
  }

  function Filled(l: Limits, n: nat): State {
    State(WorstMoment(l), Rows(n, 0, None), Tallies(n, 0), [Idle, Idle])
  }

  lemma {:induction false} FilledReached(l: Limits, n: nat)
    ensures Reachable(l, Filled(l, n))
  {
    if n == 0 {
      Begins(l, Filled(l, 0));
    } else {
      FilledReached(l, n - 1);
      assert Rows(n, 0, None) == Rows(n - 1, 0, None) + [Row("event", false, 0, None)];
      assert Tallies(n, 0) == Tallies(n - 1, 0) + [Tally(0, 0, 0)];
      Extend(l, Filled(l, n - 1), Insert("event"), Filled(l, n));
    }
  }

  function Selecting(l: Limits): State {
    var n, now := l.config.batchSize, WorstMoment(l);
    State(now, Rows(n, 0, None), Tallies(n, 0), [Holding(Ids(0, n), now), Idle])
  }

  function JustClaimed(l: Limits, now: Millis): State {
    var n := l.config.batchSize;
    State(now, Rows(n, 0, Some(0)), Tallies(n, 0), [Claimed(Ids(0, n), 0, WorstMoment(l) + l.claimDelay), Idle])
  }

  lemma FirstSelects(l: Limits)
    ensures StepAt(l, Filled(l, l.config.batchSize), Select(0, WorstMoment(l)), Selecting(l))
  {
    var s, n := Filled(l, l.config.batchSize), l.config.batchSize;
    assert Locked(s.workers) == {};
    SelectsFrom(s.rows, s.now, n, 0, n);
  }

  /** Everything but the claimed rows and the worker's stage stays, and all selected rows are leased. */
  predicate Claims(l: Limits, s: State, w: nat, ids: seq<nat>, s': State, lease: Millis) {
    && w < |s.workers| && s.workers[w] == Holding(ids, s.now) && InTable(ids, |s.rows|)
    && Unparked(l.config, s.rows, ids) == ids && lease == Rfc3339(s.now + l.config.claimLease)
    && s'.now == s.now && s'.rows == Leased(s.rows, ids, lease) && s'.tallies == s.tallies
    && s'.workers == s.workers[w := Claimed(ids, lease, s.now + l.claimDelay)]
  }

  lemma ClaimReached(l: Limits, s: State, w: nat, ids: seq<nat>, s': State, lease: Millis)
    requires Reachable(l, s) && Shaped(s) && 0 <= l.claimDelay && Claims(l, s, w, ids, s', lease)
    ensures Reachable(l, s')
  {
    Extend(l, s, Commit(w, s.now), s');
  }

  lemma FirstUnparked(l: Limits)
    requires Sane(l)
    ensures var n := l.config.batchSize;
      InTable(Ids(0, n), n) && Unparked(l.config, Selecting(l).rows, Ids(0, n)) == Ids(0, n)
  {
    KeepsAll(l.config, Selecting(l).rows, Ids(0, l.config.batchSize));
  }

  lemma FirstLeased(l: Limits, now: Millis)
    ensures JustClaimed(l, now).rows == Leased(Selecting(l).rows, Ids(0, l.config.batchSize), 0)
  {
    LeasesAll(l.config.batchSize, 0);
  }

  lemma FirstMovesOn(l: Limits, now: Millis)
    ensures JustClaimed(l, now).workers ==
            Selecting(l).workers[0 := Claimed(Ids(0, l.config.batchSize), 0, Selecting(l).now + l.claimDelay)]
  {
  }

  lemma FirstClaims(l: Limits)
    requires Sane(l)
    ensures Claims(l, Selecting(l), 0, Ids(0, l.config.batchSize), JustClaimed(l, WorstMoment(l)), 0)
  {
    LeaseEndsAtZero(l);
    FirstUnparked(l);
    FirstLeased(l, WorstMoment(l));
    FirstMovesOn(l, WorstMoment(l));
  }

  lemma SelectingShaped(l: Limits)
    ensures Shaped(Selecting(l))
  {
  }

  lemma LeasesAll(n: nat, lease: Millis)
    ensures Leased(Rows(n, 0, None), Ids(0, n), lease) == Rows(n, 0, Some(lease))
  {
    forall i: nat | i < n ensures i in Ids(0, n) {
      assert Ids(0, n)[i] == i;
    }
  }

  /** When worker 0 starts on row `done`, having used all the time it is given. */
  function Moment(l: Limits, done: nat): Millis {
    WorstMoment(l) + l.claimDelay + Budget(l.publishTimeout, done)
  }

  /** Worker 0 has taken `done` rows all the way, each write at its deadline, and publishes the next. */
  function Working(l: Limits, done: nat, now: Millis): State
    requires done < l.config.batchSize
  {
    var n := l.config.batchSize;
    State(now, Rows(n, done, Some(0)), Tallies(n, done),
          [Publishing(Ids(done, n), 0, Moment(l, done) + l.publishTimeout), Idle])
  }

  /** It has published row `done` and is writing that down. */
  function Writing(l: Limits, done: nat, now: Millis): State
    requires done < l.config.batchSize
  {
    var n := l.config.batchSize;
    State(now, Rows(n, done, Some(0)), Tallies(n, done + 1),
          [Finalizing(Ids(done, n), true, 0, Moment(l, done) + 2 * l.publishTimeout), Idle])
  }

  lemma FirstClaimReached(l: Limits)
    requires Sane(l)
    ensures Reachable(l, JustClaimed(l, WorstMoment(l)))
  {
    FilledReached(l, l.config.batchSize);
    FirstSelects(l);
    Extend(l, Filled(l, l.config.batchSize), Select(0, WorstMoment(l)), Selecting(l));
    FirstClaims(l);
    SelectingShaped(l);
    ClaimReached(l, Selecting(l), 0, Ids(0, l.config.batchSize), JustClaimed(l, WorstMoment(l)), 0);
  }

  lemma FirstWaits(l: Limits)
    requires Sane(l)
    ensures StepAt(l, JustClaimed(l, WorstMoment(l)), Tick(l.claimDelay), JustClaimed(l, WorstMoment(l) + l.claimDelay))
  {
  }

  lemma FirstStarts(l: Limits)
    requires Sane(l)
    ensures StepAt(l, JustClaimed(l, WorstMoment(l) + l.claimDelay), Start(0), Working(l, 0, Moment(l, 0)))
  {
    assert Ids(0, l.config.batchSize) != [];
  }

  lemma WorkingStarts(l: Limits)
    requires Sane(l)
    ensures Reachable(l, Working(l, 0, Moment(l, 0)))
  {
    var t := WorstMoment(l);
    FirstClaimReached(l);
    FirstWaits(l);
    Extend(l, JustClaimed(l, t), Tick(l.claimDelay), JustClaimed(l, t + l.claimDelay));
    FirstStarts(l);
    Extend(l, JustClaimed(l, t + l.claimDelay), Start(0), Working(l, 0, Moment(l, 0)));
  }

  lemma PublishesLate(l: Limits, done: nat)
    requires Sane(l) && done < l.config.batchSize && Reachable(l, Working(l, done, Moment(l, done)))
    ensures Reachable(l, Writing(l, done, Moment(l, done + 1)))
  {
    var now, pt := Moment(l, done), l.publishTimeout;
    WaitsToPublish(l, done);
    Extend(l, Working(l, done, now), Tick(pt), Working(l, done, now + pt));
    PublishStep(l, done);
    Extend(l, Working(l, done, now + pt), Publish(0, true, true), Writing(l, done, now + pt));
    WaitsToWrite(l, done);
    Extend(l, Writing(l, done, now + pt), Tick(pt), Writing(l, done, now + 2 * pt));
  }

  lemma WaitsToPublish(l: Limits, done: nat)
    requires Sane(l) && done < l.config.batchSize
    ensures var now := Moment(l, done);
      StepAt(l, Working(l, done, now), Tick(l.publishTimeout), Working(l, done, now + l.publishTimeout))
  {
  }

  lemma WaitsToWrite(l: Limits, done: nat)
    requires Sane(l) && done < l.config.batchSize
    ensures var now := Moment(l, done) + l.publishTimeout;
      StepAt(l, Writing(l, done, now), Tick(l.publishTimeout), Writing(l, done, now + l.publishTimeout))
  {
  }

  lemma PublishStep(l: Limits, done: nat)
    requires done < l.config.batchSize
    ensures var now := Moment(l, done) + l.publishTimeout;
      StepAt(l, Working(l, done, now), Publish(0, true, true), Writing(l, done, now))
  {
    var n := l.config.batchSize;
    assert Ids(done, n)[0] == done;
    assert Tallies(n, done)[done := Tally(1, 0, 0)] == Tallies(n, done + 1);
  }

  lemma WriteStep(l: Limits, done: nat)
    requires done + 1 < l.config.batchSize
    ensures StepAt(l, Writing(l, done, Moment(l, done + 1)), Finalize(0, true), Working(l, done + 1, Moment(l, done + 1)))
  {
    var n, s := l.config.batchSize, Writing(l, done, Moment(l, done + 1));
    assert Ids(done, n)[0] == done && Ids(done, n)[1..] == Ids(done + 1, n);
    assert Locked(s.workers) == {};
    assert s.rows[done := s.rows[done].(processed := true)] == Rows(n, done + 1, Some(0));
    assert s.tallies[done := s.tallies[done].(lost := 0)] == s.tallies;
  }

  lemma {:induction false} WorkingReached(l: Limits, done: nat)
    requires Sane(l) && done < l.config.batchSize
    ensures Reachable(l, Working(l, done, Moment(l, done)))
  {
    if done == 0 {
      WorkingStarts(l);
    } else {
      WorkingReached(l, done - 1);
      PublishesLate(l, done - 1);
      WriteStep(l, done - 1);
      Extend(l, Writing(l, done - 1, Moment(l, done)), Finalize(0, true), Working(l, done, Moment(l, done)));
    }
  }

  // ---- The second worker -----------------------------------------------------------------------

  /** The last row, still being written, looks free to the second worker. */
  function Intruded(l: Limits, stage: Stage, lease: Millis): State
    requires l.config.batchSize > 0
  {
    var last := l.config.batchSize - 1;
    var s := Writing(l, last, Moment(l, last + 1));
    s.(rows := s.rows[last := s.rows[last].(claimedUntil := Some(lease))], workers := [s.workers[0], stage])
  }

  /** Once the lease at 0 is over, the query finds the one row that is not processed. */
  lemma OnlyLastIsDue(n: nat, now: Millis)
    requires n > 0 && now > 0
    ensures Selected(Rows(n, n - 1, Some(0)), {}, now, n, n) == [n - 1]
  {
    SelectsFrom(Rows(n, n - 1, Some(0)), now, n, n - 1, n);
    assert Ids(n - 1, n) == [n - 1];
  }

  lemma IntrudedRows(l: Limits, stage: Stage)
    requires l.config.batchSize > 0
    ensures var n := l.config.batchSize; Intruded(l, stage, 0).rows == Rows(n, n - 1, Some(0))
  {
  }

  lemma SecondSelects(l: Limits)
    requires Sane(l) && !LeaseSuffices(l)
    ensures var n := l.config.batchSize; var now := Moment(l, n);
      StepAt(l, Writing(l, n - 1, now), Select(1, now), Intruded(l, Holding([n - 1], now), 0))
  {
    var n := l.config.batchSize;
    var now := Moment(l, n);
    assert Locked(Writing(l, n - 1, now).workers) == {};
    OnlyLastIsDue(n, now);
    IntrudedRows(l, Holding([n - 1], now));
  }

  lemma SecondUnparked(l: Limits)
    requires Sane(l)
    ensures var n := l.config.batchSize; var s := Intruded(l, Holding([n - 1], Moment(l, n)), 0);
      Shaped(s) && InTable([n - 1], |s.rows|) && Unparked(l.config, s.rows, [n - 1]) == [n - 1]
  {
    var n := l.config.batchSize;
    KeepsAll(l.config, Intruded(l, Holding([n - 1], Moment(l, n)), 0).rows, [n - 1]);
  }

  lemma SecondLeased(l: Limits, lease: Millis, before: Stage, after: Stage)
    requires Sane(l)
    ensures Intruded(l, after, lease).rows == Leased(Intruded(l, before, 0).rows, [l.config.batchSize - 1], lease)
  {
  }

  lemma SecondClaims(l: Limits, lease: Millis)
    requires Sane(l) && lease == Rfc3339(Moment(l, l.config.batchSize) + l.config.claimLease)
    ensures var n := l.config.batchSize; var now := Moment(l, n);
      Claims(l, Intruded(l, Holding([n - 1], now), 0), 1, [n - 1],
             Intruded(l, Claimed([n - 1], lease, now + l.claimDelay), lease), lease)
  {
    var n := l.config.batchSize;
    var now := Moment(l, n);
    SecondUnparked(l);
    SecondLeased(l, lease, Holding([n - 1], now), Claimed([n - 1], lease, now + l.claimDelay));
  }

  lemma SecondStarts(l: Limits, lease: Millis)
    requires Sane(l)
    ensures var n := l.config.batchSize; var now := Moment(l, n);
      StepAt(l, Intruded(l, Claimed([n - 1], lease, now + l.claimDelay), lease), Start(1),
             Intruded(l, Publishing([n - 1], lease, now + l.publishTimeout), lease))
  {
  }

  lemma IntruderSelects(l: Limits)
    requires Sane(l) && !LeaseSuffices(l)
    ensures var n := l.config.batchSize; var now := Moment(l, n); Reachable(l, Intruded(l, Holding([n - 1], now), 0))
  {
    var n := l.config.batchSize;
    var now := Moment(l, n);
    WorkingReached(l, n - 1);
    PublishesLate(l, n - 1);
    SecondSelects(l);
    Extend(l, Writing(l, n - 1, now), Select(1, now), Intruded(l, Holding([n - 1], now), 0));
  }

  lemma IntruderReached(l: Limits, lease: Millis)
    requires Sane(l) && !LeaseSuffices(l) && lease == Rfc3339(Moment(l, l.config.batchSize) + l.config.claimLease)
    ensures var n := l.config.batchSize;
      Reachable(l, Intruded(l, Claimed([n - 1], lease, Moment(l, n) + l.claimDelay), lease))
  {
    var n := l.config.batchSize;
    var now := Moment(l, n);
    IntruderSelects(l);
    SecondUnparked(l);
    SecondClaims(l, lease);
    ClaimReached(l, Intruded(l, Holding([n - 1], now), 0), 1, [n - 1],
                 Intruded(l, Claimed([n - 1], lease, now + l.claimDelay), lease), lease);
  }

  lemma Meets(l: Limits, lease: Millis)
    requires l.config.batchSize > 0
    ensures var n := l.config.batchSize;
      Collide(Intruded(l, Publishing([n - 1], lease, Moment(l, n) + l.publishTimeout), lease), 0, 1, n - 1)
  {
    var n := l.config.batchSize;
    assert Ids(n - 1, n)[0] == n - 1;
  }

  /** Short of the bound, by whatever little, a run brings two workers together on the last row of a batch. */
  lemma ShortLeaseCollides(l: Limits)
    requires Sane(l) && !LeaseSuffices(l)
    ensures exists s :: Reachable(l, s) && Collide(s, 0, 1, l.config.batchSize - 1)
  {
    var n := l.config.batchSize;
    var now := Moment(l, n);
    var lease := Rfc3339(now + l.config.claimLease);
    IntruderReached(l, lease);
    SecondStarts(l, lease);
    Extend(l, Intruded(l, Claimed([n - 1], lease, now + l.claimDelay), lease), Start(1),
           Intruded(l, Publishing([n - 1], lease, now + l.publishTimeout), lease));
    Meets(l, lease);
  }

  /** In no run do two workers work on one row at once. */
  ghost predicate NeverCollides(l: Limits) {
    forall s, v, w, i :: Reachable(l, s) ==> !Collide(s, v, w, i)
  }

  /**
   * The bound is exact for every setting: workers never meet on a row if and only if the claim delay, two
   * timeouts for each row of a batch and the 999 milliseconds that a timestamp can drop fit into the lease.
   */
  lemma {:induction false} ExclusionIff(l: Limits)
    requires Sane(l)
    ensures NeverCollides(l) <==> LeaseSuffices(l)
  {
    if LeaseSuffices(l) {
      forall s, v, w, i | Reachable(l, s) ensures !Collide(s, v, w, i) {
        var run, steps :| LeadsTo(l, run, steps, s);
        TimedExclusion(l, run, steps, |steps|, v, w, i);
      }
    } else {
      ShortLeaseCollides(l);
    }
  }

  /** So a lease of exactly the batch's publish and write time is too short. */
  lemma TruncationMatters(l: Limits)
    requires Sane(l) && l.config.claimLease == l.claimDelay + Budget(l.publishTimeout, l.config.batchSize)
    ensures !NeverCollides(l)
  {
    ExclusionIff(l);
  }
}
