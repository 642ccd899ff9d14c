// Any number of outbox workers against one table and one clock: claim, publish, write the result, crash.
// Delays are bounded as the worker bounds them: each publish and each write by `publishTimeout`, and the
// way from computing a lease to the first publish by `claimDelay`.
module OutboxTiming {
  import opened Wrappers
  import opened Clock
  import opened Sequences
  import opened Outbox

  datatype Limits = Limits(config: Outbox.Config, publishTimeout: Millis, claimDelay: Millis)

  datatype Stage =
    | Idle
    /** Inside the claim transaction: the selected rows are locked. */
    | Holding(selected: seq<nat>, since: Millis)
    /** Committed, not yet publishing. */
    | Claimed(todo: seq<nat>, lease: Millis, deadline: Millis)
    /** Publishing the first row. */
    | Publishing(todo: seq<nat>, lease: Millis, deadline: Millis)
    /** Writing the first row's result. */
    | Finalizing(todo: seq<nat>, published: bool, lease: Millis, deadline: Millis)

  /** What happened to a row: deliveries to the broker, publishes reported failed, retry writes lost. */
  datatype Tally = Tally(delivered: nat, failed: nat, lost: nat)

  datatype State = State(now: Millis, rows: seq<Row>, tallies: seq<Tally>, workers: seq<Stage>)

  datatype Step =
    | Insert(payload: string)
    | Tick(elapsed: Millis)
    /** The claim query, on the snapshot clock `started` of its transaction. */
    | Select(worker: nat, started: Millis)
    /** The claim commits; its lease was computed at `at`. */
    | Commit(worker: nat, at: Millis)
    | Start(worker: nat)
    /** The publish returns; one that times out may still have been delivered. */
    | Publish(worker: nat, delivered: bool, published: bool)
    | Finalize(worker: nat, recorded: bool)
    | Crash(worker: nat)

  /** The rows a worker will still write. */
  function Hand(w: Stage): seq<nat> {
    match w
    case Idle => []
    case Holding(selected, _) => selected
    case _ => w.todo
  }

  function Locked(workers: seq<Stage>): set<nat> {
    set w, i | 0 <= w < |workers| && workers[w].Holding? && i in workers[w].selected :: i
  }

  predicate OnTime(w: Stage, now: Millis) {
    w.Idle? || w.Holding? || now <= w.deadline
  }

  predicate Enabled(l: Limits, s: State, step: Step) {
    match step
    case Insert(_) => true
    case Tick(elapsed) =>
      elapsed >= 0 && forall w :: 0 <= w < |s.workers| ==> OnTime(s.workers[w], s.now + elapsed)
    case Select(w, started) => w < |s.workers| && s.workers[w].Idle? && started <= s.now
    case Commit(w, at) =>
      && w < |s.workers| && s.workers[w].Holding?
      && s.workers[w].since <= at <= s.now <= at + l.claimDelay
    case Start(w) => w < |s.workers| && s.workers[w].Claimed?
    case Publish(w, delivered, published) =>
      w < |s.workers| && s.workers[w].Publishing? && s.workers[w].todo != [] && (published ==> delivered)
    case Finalize(w, recorded) =>
      && w < |s.workers| && s.workers[w].Finalizing? && s.workers[w].todo != []
      && (recorded ==> s.workers[w].todo[0] !in Locked(s.workers))
    case Crash(w) => w < |s.workers|
  }

  function Next(l: Limits, s: State, step: Step): State
    requires Enabled(l, s, step) && Shaped(s)
  {
    match step
    case Insert(payload) =>
      s.(rows := s.rows + [Row(payload, false, 0, None)], tallies := s.tallies + [Tally(0, 0, 0)])
    case Tick(elapsed) => s.(now := s.now + elapsed)
    case Select(w, started) =>
      var ids := Selected(s.rows, Locked(s.workers), started, l.config.batchSize, |s.rows|);
      Put(s, w, Holding(ids, s.now))
    case Commit(w, at) => Committed(l, s, w, s.workers[w].selected, at)
    case Start(w) => Put(s, w, Onward(l, s.now, s.workers[w].todo, s.workers[w].lease))
    case Publish(w, delivered, published) =>
      var st := s.workers[w];
      var i := st.todo[0];
      var t := s.tallies[i];
      Put(s.(tallies := s.tallies[i := Tally(t.delivered + Bit(delivered), t.failed + Bit(!published), t.lost)]),
        w, Finalizing(st.todo, published, st.lease, s.now + l.publishTimeout))
    case Finalize(w, recorded) =>
      var st := s.workers[w];
      var i := st.todo[0];
      var t := s.tallies[i];
      Put(s.(rows := s.rows[i := Finished(s.rows[i], Outcome(st.published, recorded))],
             tallies := s.tallies[i := t.(lost := t.lost + Bit(!st.published && !recorded))]),
        w, Onward(l, s.now, st.todo[1..], st.lease))
    case Crash(w) =>
      var st := s.workers[w];
      if st.Finalizing? && st.todo != [] && !st.published then
        var i := st.todo[0];
        Put(s.(tallies := s.tallies[i := s.tallies[i].(lost := s.tallies[i].lost + 1)]), w, Idle)
      else Put(s, w, Idle)
  }

  function Committed(l: Limits, s: State, w: nat, selected: seq<nat>, at: Millis): State
    requires w < |s.workers| && InTable(selected, |s.rows|)
  {
    var todo := Unparked(l.config, s.rows, selected);
    var lease := Rfc3339(at + l.config.claimLease);
    Put(s.(rows := Leased(s.rows, todo, lease)), w, Claimed(todo, lease, at + l.claimDelay))
  }

  function Bit(b: bool): nat {
    if b then 1 else 0
  }

  function Put(s: State, w: nat, stage: Stage): State
    requires w < |s.workers|
  {
    s.(workers := s.workers[w := stage])
  }

  /** The next publish, or the end of the batch. */
  function Onward(l: Limits, now: Millis, todo: seq<nat>, lease: Millis): Stage {
    if todo == [] then Idle else Publishing(todo, lease, now + l.publishTimeout)
  }

  /** Every id a worker holds is a row of the table. */
  ghost predicate Shaped(s: State) {
    && |s.tallies| == |s.rows|
    && forall w :: 0 <= w < |s.workers| ==> InTable(Hand(s.workers[w]), |s.rows|)
  }

  // ---- The bound -----------------------------------------------------------------------------

  /** The longest that publishing and writing `n` rows can take. */
  function Budget(publishTimeout: Millis, n: nat): Millis {
    if n == 0 then 0 else Budget(publishTimeout, n - 1) + 2 * publishTimeout
  }

  /** A whole batch fits inside the lease, even after the lease lost its fraction of a second, at most 999 ms. */
  predicate LeaseSuffices(l: Limits) {
    && 0 <= l.publishTimeout && 0 <= l.claimDelay
    && l.claimDelay + (SECOND - 1) + Budget(l.publishTimeout, l.config.batchSize) <= l.config.claimLease
  }

  lemma {:induction false} BudgetIsProduct(publishTimeout: Millis, n: nat)
    ensures Budget(publishTimeout, n) == n * (2 * publishTimeout)
  {
    if n > 0 {
      BudgetIsProduct(publishTimeout, n - 1);
    }
  }

  lemma {:induction false} BudgetGrows(publishTimeout: Millis, m: nat, n: nat)
    requires m <= n && 0 <= publishTimeout
    ensures 0 <= Budget(publishTimeout, m) <= Budget(publishTimeout, n)
    decreases n
  {
    if m < n {
      BudgetGrows(publishTimeout, m, n - 1);
    } else if m > 0 {
      BudgetGrows(publishTimeout, m - 1, n - 1);
    }
  }

  /** The defaults leave room for a claim delay of nineteen seconds, and a millisecond. */
  lemma DefaultsSuffice(claimDelay: Millis)
    requires 0 <= claimDelay
    ensures LeaseSuffices(Limits(Outbox.Config(10, 10, 120 * SECOND), 5 * SECOND, claimDelay)) <==>
              claimDelay <= 19 * SECOND + 1
  {
    BudgetIsProduct(5 * SECOND, 10);
  }

  // ---- The invariant -------------------------------------------------------------------------

  /** What a worker may rely on about a row in its hand after the claim. */
  predicate Mine(l: Limits, row: Row, lease: Millis) {
    row.claimedUntil == Some(lease) && !Parked(l.config, row)
  }

  ghost predicate AllMine(l: Limits, rows: seq<Row>, todo: seq<nat>, lease: Millis) {
    forall k :: 0 <= k < |todo| ==> todo[k] < |rows| && Mine(l, rows[todo[k]], lease)
  }

  /** The stage's deadline, the rows after it and their writes all fit before the lease ends. */
  predicate InTime(l: Limits, w: Stage, now: Millis) {
    match w
    case Idle => true
    case Holding(selected, since) => since <= now && |selected| <= l.config.batchSize
    case Claimed(todo, lease, deadline) =>
      now <= deadline && deadline + Budget(l.publishTimeout, |todo|) <= lease
    case Publishing(todo, lease, deadline) =>
      todo != [] && now <= deadline && deadline + l.publishTimeout + Budget(l.publishTimeout, |todo| - 1) <= lease
    case Finalizing(todo, _, lease, deadline) =>
      todo != [] && now <= deadline && deadline + Budget(l.publishTimeout, |todo| - 1) <= lease
  }

  ghost predicate StageGood(l: Limits, s: State, w: Stage) {
    && NoDuplicates(Hand(w)) && InTable(Hand(w), |s.rows|)
    && InTime(l, w, s.now)
    && (w.Idle? || w.Holding? || AllMine(l, s.rows, w.todo, w.lease))
  }

  ghost predicate Apart(a: seq<nat>, b: seq<nat>) {
    forall i :: i in a ==> i !in b
  }

  ghost predicate HandsApart(workers: seq<Stage>) {
    forall v, w :: 0 <= v < |workers| && 0 <= w < |workers| && v != w ==> Apart(Hand(workers[v]), Hand(workers[w]))
  }

  ghost predicate Exclusive(l: Limits, s: State) {
    && |s.tallies| == |s.rows|
    && HandsApart(s.workers)
    && forall w :: 0 <= w < |s.workers| ==> StageGood(l, s, s.workers[w])
  }

  ghost predicate OnlyTouches(rows: seq<Row>, rows': seq<Row>, ids: seq<nat>) {
    |rows| == |rows'| && forall i :: 0 <= i < |rows| && i !in ids ==> rows'[i] == rows[i]
  }

  /** A worker apart from the rows that changed does not notice. */
  lemma StageKept(l: Limits, s: State, s': State, w: Stage, ids: seq<nat>)
    requires StageGood(l, s, w) && s'.now == s.now && OnlyTouches(s.rows, s'.rows, ids) && Apart(Hand(w), ids)
    ensures StageGood(l, s', w)
  {
    if w.Claimed? || w.Publishing? || w.Finalizing? {
      forall k | 0 <= k < |w.todo| ensures s'.rows[w.todo[k]] == s.rows[w.todo[k]] {
        assert Hand(w)[k] !in ids;
      }
    }
  }

  /** One worker moves on: its new stage is good and it changed no row of the others. */
  lemma Moved(l: Limits, s: State, s': State, w: nat)
    requires Exclusive(l, s) && w < |s.workers| && |s'.workers| == |s.workers|
    requires s'.workers == s.workers[w := s'.workers[w]] && s'.now == s.now && |s'.tallies| == |s'.rows|
    requires OnlyTouches(s.rows, s'.rows, Hand(s.workers[w]))
    requires StageGood(l, s', s'.workers[w])
    requires forall v :: 0 <= v < |s.workers| && v != w ==> Apart(Hand(s.workers[v]), Hand(s'.workers[w]))
    ensures Exclusive(l, s')
  {
    forall v | 0 <= v < |s'.workers| ensures StageGood(l, s', s'.workers[v]) {
      if v != w {
        StageKept(l, s, s', s.workers[v], Hand(s.workers[w]));
      }
    }
    forall u, v | 0 <= u < |s'.workers| && 0 <= v < |s'.workers| && u != v
      ensures Apart(Hand(s'.workers[u]), Hand(s'.workers[v]))
    {
      assert Apart(Hand(s.workers[u]), Hand(s.workers[v]));
    }
  }

  lemma SmallerHand(workers: seq<Stage>, w: nat, hand: seq<nat>)
    requires w < |workers| && HandsApart(workers)
    requires forall i :: i in hand ==> i in Hand(workers[w])
    ensures forall v :: 0 <= v < |workers| && v != w ==> Apart(Hand(workers[v]), hand)
  {
    forall v | 0 <= v < |workers| && v != w ensures Apart(Hand(workers[v]), hand) {
      assert Apart(Hand(workers[v]), Hand(workers[w]));
    }
  }

  /** While a worker holds leased rows, their lease has not run out. */
  lemma LeaseHolds(l: Limits, s: State, w: Stage)
    requires StageGood(l, s, w) && !w.Idle? && !w.Holding? && 0 <= l.publishTimeout
    ensures s.now <= w.lease
  {
    BudgetGrows(l.publishTimeout, 0, |w.todo|);
    if w.todo != [] {
      BudgetGrows(l.publishTimeout, 0, |w.todo| - 1);
    }
  }

  lemma SelectKeeps(l: Limits, s: State, w: nat, started: Millis)
    requires Exclusive(l, s) && LeaseSuffices(l) && Enabled(l, s, Select(w, started))
    ensures Exclusive(l, Next(l, s, Select(w, started)))
  {
    var locked := Locked(s.workers);
    var ids := Selected(s.rows, locked, started, l.config.batchSize, |s.rows|);
    SelectedOnce(s.rows, locked, started, l.config.batchSize, |s.rows|);
    forall v | 0 <= v < |s.workers| && v != w ensures Apart(Hand(s.workers[v]), ids) {
      FreshHand(l, s, s.workers[v], v, ids, started);
    }
    Moved(l, s, Next(l, s, Select(w, started)), w);
  }

  /** Nothing the query returns is in another worker's hand. */
  lemma FreshHand(l: Limits, s: State, other: Stage, v: nat, ids: seq<nat>, started: Millis)
    requires v < |s.workers| && s.workers[v] == other && StageGood(l, s, other) && 0 <= l.publishTimeout
    requires started <= s.now && forall i :: i in ids ==> Eligible(s.rows, Locked(s.workers), started, i)
    ensures Apart(Hand(other), ids)
  {
    if other.Holding? {
      forall i | i in other.selected ensures i in Locked(s.workers) {
        assert s.workers[v].Holding? && i in s.workers[v].selected;
      }
    } else if !other.Idle? {
      LeaseHolds(l, s, other);
      forall i | i in other.todo ensures i !in ids {
        var k :| 0 <= k < |other.todo| && other.todo[k] == i;
        assert Mine(l, s.rows[other.todo[k]], other.lease);
      }
    }
  }

  /** The rows a commit leases are fresh work that fits before the lease ends. */
  lemma ClaimIsGood(l: Limits, rows: seq<Row>, selected: seq<nat>, at: Millis)
    requires LeaseSuffices(l) && NoDuplicates(selected) && InTable(selected, |rows|)
    requires |selected| <= l.config.batchSize
    ensures var todo := Unparked(l.config, rows, selected);
      var lease := Rfc3339(at + l.config.claimLease);
      && NoDuplicates(todo) && InTable(todo, |rows|)
      && AllMine(l, Leased(rows, todo, lease), todo, lease)
      && at + l.claimDelay + Budget(l.publishTimeout, |todo|) <= lease
  {
    var todo := Unparked(l.config, rows, selected);
    UnparkedOnce(l.config, rows, selected);
    BudgetGrows(l.publishTimeout, |todo|, l.config.batchSize);
    forall k | 0 <= k < |todo| ensures !Parked(l.config, rows[todo[k]]) {
      assert todo[k] in todo;
    }
  }

  lemma CommittedTouches(l: Limits, s: State, w: nat, selected: seq<nat>, at: Millis)
    requires w < |s.workers| && InTable(selected, |s.rows|)
    ensures OnlyTouches(s.rows, Committed(l, s, w, selected, at).rows, selected)
  {
    var todo := Unparked(l.config, s.rows, selected);
    assert forall i :: i in todo ==> i in selected;
  }

  /** The claiming worker's own stage after its commit. */
  lemma CommittedStage(l: Limits, s: State, w: nat, selected: seq<nat>, at: Millis)
    requires LeaseSuffices(l) && w < |s.workers| && s.now <= at + l.claimDelay
    requires InTable(selected, |s.rows|) && NoDuplicates(selected) && |selected| <= l.config.batchSize
    ensures var s' := Committed(l, s, w, selected, at); StageGood(l, s', s'.workers[w])
  {
    ClaimIsGood(l, s.rows, selected, at);
    var s' := Committed(l, s, w, selected, at);
    var todo, lease := Unparked(l.config, s.rows, selected), Rfc3339(at + l.config.claimLease);
    assert s'.workers[w] == Claimed(todo, lease, at + l.claimDelay) && s'.rows == Leased(s.rows, todo, lease);
  }

  lemma CommitKeeps(l: Limits, s: State, w: nat, selected: seq<nat>, at: Millis)
    requires Exclusive(l, s) && LeaseSuffices(l) && w < |s.workers| && Hand(s.workers[w]) == selected
    requires InTable(selected, |s.rows|) && NoDuplicates(selected) && |selected| <= l.config.batchSize
    requires s.now <= at + l.claimDelay
    ensures Exclusive(l, Committed(l, s, w, selected, at))
  {
    CommittedStage(l, s, w, selected, at);
    CommittedTouches(l, s, w, selected, at);
    SmallerHand(s.workers, w, Unparked(l.config, s.rows, selected));
    Moved(l, s, Committed(l, s, w, selected, at), w);
  }

  lemma StartKeeps(l: Limits, s: State, w: nat)
    requires Exclusive(l, s) && LeaseSuffices(l) && Enabled(l, s, Start(w))
    ensures Exclusive(l, Next(l, s, Start(w)))
  {
    var s' := Next(l, s, Start(w));
    assert StageGood(l, s, s.workers[w]);
    SmallerHand(s.workers, w, Hand(s'.workers[w]));
    Moved(l, s, s', w);
  }

  lemma PublishKeeps(l: Limits, s: State, w: nat, delivered: bool, published: bool)
    requires Exclusive(l, s) && LeaseSuffices(l) && Enabled(l, s, Publish(w, delivered, published))
    ensures Exclusive(l, Next(l, s, Publish(w, delivered, published)))
  {
    var s' := Next(l, s, Publish(w, delivered, published));
    assert StageGood(l, s, s.workers[w]);
    SmallerHand(s.workers, w, Hand(s'.workers[w]));
    Moved(l, s, s', w);
  }

  lemma CrashKeeps(l: Limits, s: State, w: nat)
    requires Exclusive(l, s) && Enabled(l, s, Crash(w))
    ensures Exclusive(l, Next(l, s, Crash(w)))
  {
    var s' := Next(l, s, Crash(w));
    assert StageGood(l, s, s.workers[w]);
    SmallerHand(s.workers, w, []);
    Moved(l, s, s', w);
  }

  /** Writing the first row's result leaves the rows after it as they were. */
  lemma RestIsMine(l: Limits, rows: seq<Row>, rows': seq<Row>, todo: seq<nat>, lease: Millis)
    requires todo != [] && NoDuplicates(todo) && AllMine(l, rows, todo, lease) && OnlyTouches(rows, rows', [todo[0]])
    ensures NoDuplicates(todo[1..]) && AllMine(l, rows', todo[1..], lease)
  {
    forall k | 0 <= k < |todo[1..]| ensures todo[1..][k] < |rows'| && Mine(l, rows'[todo[1..][k]], lease) {
      assert todo[1..][k] == todo[k + 1] && todo[k + 1] != todo[0];
    }
  }

  lemma FinalizedTouches(l: Limits, s: State, w: nat, recorded: bool)
    requires Enabled(l, s, Finalize(w, recorded)) && Shaped(s)
    ensures OnlyTouches(s.rows, Next(l, s, Finalize(w, recorded)).rows, [s.workers[w].todo[0]])
  {
  }

  /** The next publish, if any, has its time before the lease ends. */
  lemma OnwardGood(l: Limits, s: State, rest: seq<nat>, lease: Millis)
    requires 0 <= l.publishTimeout && NoDuplicates(rest) && AllMine(l, s.rows, rest, lease)
    requires s.now + Budget(l.publishTimeout, |rest|) <= lease
    ensures StageGood(l, s, Onward(l, s.now, rest, lease))
  {
    assert Hand(Onward(l, s.now, rest, lease)) == rest;
  }

  lemma FinalizedStage(l: Limits, s: State, w: nat, recorded: bool)
    requires Enabled(l, s, Finalize(w, recorded)) && Shaped(s)
    requires LeaseSuffices(l) && StageGood(l, s, s.workers[w])
    ensures var s' := Next(l, s, Finalize(w, recorded)); StageGood(l, s', s'.workers[w])
  {
    var s' := Next(l, s, Finalize(w, recorded));
    var st := s.workers[w];
    FinalizedTouches(l, s, w, recorded);
    RestIsMine(l, s.rows, s'.rows, st.todo, st.lease);
    OnwardGood(l, s', st.todo[1..], st.lease);
  }

  lemma FinalizeKeeps(l: Limits, s: State, w: nat, recorded: bool)
    requires Exclusive(l, s) && LeaseSuffices(l) && Enabled(l, s, Finalize(w, recorded)) && Shaped(s)
    ensures Exclusive(l, Next(l, s, Finalize(w, recorded)))
  {
    var s' := Next(l, s, Finalize(w, recorded));
    var todo := s.workers[w].todo;
    FinalizedStage(l, s, w, recorded);
    FinalizedTouches(l, s, w, recorded);
    assert Hand(s.workers[w]) == todo && Hand(s'.workers[w]) == todo[1..];
    SmallerHand(s.workers, w, todo[1..]);
    Moved(l, s, s', w);
  }

  lemma InsertKeeps(l: Limits, s: State, payload: string)
    requires Exclusive(l, s)
    ensures Exclusive(l, Next(l, s, Insert(payload)))
  {
    var s' := Next(l, s, Insert(payload));
    forall w | 0 <= w < |s'.workers| ensures StageGood(l, s', s'.workers[w]) {
      assert StageGood(l, s, s.workers[w]);
    }
  }

  lemma TickKeeps(l: Limits, s: State, elapsed: Millis)
    requires Exclusive(l, s) && Enabled(l, s, Tick(elapsed))
    ensures Exclusive(l, Next(l, s, Tick(elapsed)))
  {
    var s' := Next(l, s, Tick(elapsed));
    forall w | 0 <= w < |s'.workers| ensures StageGood(l, s', s'.workers[w]) {
      assert StageGood(l, s, s.workers[w]) && OnTime(s.workers[w], s'.now);
    }
  }

  lemma {:induction false} StepKeeps(l: Limits, s: State, step: Step)
    requires Exclusive(l, s) && LeaseSuffices(l) && Enabled(l, s, step)
    ensures Shaped(s) && Exclusive(l, Next(l, s, step))
  {
    match step
    case Insert(payload) => InsertKeeps(l, s, payload);
    case Tick(elapsed) => TickKeeps(l, s, elapsed);
    case Select(w, started) => SelectKeeps(l, s, w, started);
    case Commit(w, at) =>
      assert StageGood(l, s, s.workers[w]);
      CommitKeeps(l, s, w, s.workers[w].selected, at);
    case Start(w) => StartKeeps(l, s, w);
    case Publish(w, delivered, published) => PublishKeeps(l, s, w, delivered, published);
    case Finalize(w, recorded) => FinalizeKeeps(l, s, w, recorded);
    case Crash(w) => CrashKeeps(l, s, w);
  }

  // ---- Whole runs ----------------------------------------------------------------------------

  ghost predicate StepAt(l: Limits, s: State, step: Step, s': State) {
    Shaped(s) && Enabled(l, s, step) && s' == Next(l, s, step)
  }

  /** The states of a run, first to last. */
  ghost predicate Run(l: Limits, run: seq<State>, steps: seq<Step>) {
    && |run| == |steps| + 1
    && forall k :: 0 <= k < |steps| ==> StepAt(l, run[k], steps[k], run[k + 1])
  }

  predicate Initial(s: State) {
    s.rows == [] && s.tallies == [] && forall w :: 0 <= w < |s.workers| ==> s.workers[w].Idle?
  }

  lemma {:induction false} RunKeeps(l: Limits, run: seq<State>, steps: seq<Step>, k: nat)
    requires Run(l, run, steps) && k < |run| && Initial(run[0]) && LeaseSuffices(l)
    ensures Exclusive(l, run[k])
  {
    if k > 0 {
      RunKeeps(l, run, steps, k - 1);
      assert StepAt(l, run[k - 1], steps[k - 1], run[k]);
      StepKeeps(l, run[k - 1], steps[k - 1]);
    }
  }

  /** The row a worker is publishing or writing at this moment. */
  predicate WorksOn(w: Stage, i: nat) {
    (w.Publishing? || w.Finalizing?) && w.todo != [] && w.todo[0] == i
  }

  predicate Collide(s: State, v: nat, w: nat, i: nat) {
    v < w < |s.workers| && WorksOn(s.workers[v], i) && WorksOn(s.workers[w], i)
  }

  /** However many workers there are and wherever they crash, no two ever work on one row at once. */
  lemma TimedExclusion(l: Limits, run: seq<State>, steps: seq<Step>, k: nat, v: nat, w: nat, i: nat)
    requires Run(l, run, steps) && k < |run| && Initial(run[0]) && LeaseSuffices(l)
    ensures !Collide(run[k], v, w, i)
  {
    RunKeeps(l, run, steps, k);
    if v < w < |run[k].workers| {
      WorkApart(run[k].workers, v, w, i);
    }
  }

  lemma WorkApart(workers: seq<Stage>, v: nat, w: nat, i: nat)
    requires v < w < |workers| && HandsApart(workers)
    ensures !(WorksOn(workers[v], i) && WorksOn(workers[w], i))
  {
    assert Apart(Hand(workers[v]), Hand(workers[w]));
    assert WorksOn(workers[v], i) ==> i in Hand(workers[v]);
    assert WorksOn(workers[w], i) ==> i in Hand(workers[w]);
  }

  // ---- Accounting ----------------------------------------------------------------------------

  /** How many workers are about to record a failed publish of row `i`. */
  function Recording(workers: seq<Stage>, i: nat): nat {
    if workers == [] then 0
    else
      var last := |workers| - 1;
      Recording(workers[..last], i) + Bit(FailedOn(workers[last], i))
  }

  predicate FailedOn(w: Stage, i: nat) {
    w.Finalizing? && w.todo != [] && !w.published && w.todo[0] == i
  }

  lemma {:induction false} RecordingPut(workers: seq<Stage>, w: nat, stage: Stage, i: nat)
    requires w < |workers|
    ensures Recording(workers[w := stage], i) + Bit(FailedOn(workers[w], i)) ==
            Recording(workers, i) + Bit(FailedOn(stage, i))
  {
    var last := |workers| - 1;
    if w < last {
      RecordingPut(workers[..last], w, stage, i);
      assert workers[w := stage][..last] == workers[..last][w := stage];
    } else {
      assert workers[w := stage][..last] == workers[..last];
    }
  }

  /** Each failed publish ends as a retry, a lost write, or is about to be written. */
  predicate RowAccounted(s: State, i: nat)
    requires i < |s.rows| && |s.tallies| == |s.rows|
  {
    && s.tallies[i].failed == s.rows[i].retries + s.tallies[i].lost + Recording(s.workers, i)
    && (s.rows[i].processed ==> s.tallies[i].delivered > 0)
  }

  /** A worker about to mark a row processed has seen it delivered. */
  predicate Delivered(s: State, w: Stage) {
    w.Finalizing? && w.published && w.todo != [] && w.todo[0] < |s.tallies| ==>
      s.tallies[w.todo[0]].delivered > 0
  }

  ghost predicate Accounted(s: State) {
    && Shaped(s)
    && (forall i :: 0 <= i < |s.rows| ==> RowAccounted(s, i))
    && forall w :: 0 <= w < |s.workers| ==> Delivered(s, s.workers[w])
  }

  lemma {:induction false} NobodyRecords(workers: seq<Stage>, i: nat)
    requires forall w :: 0 <= w < |workers| ==> i !in Hand(workers[w])
    ensures Recording(workers, i) == 0
  {
    if workers != [] {
      NobodyRecords(workers[..|workers| - 1], i);
    }
  }

  lemma InsertAccounted(l: Limits, s: State, payload: string)
    requires Accounted(s)
    ensures Accounted(Next(l, s, Insert(payload)))
  {
    var s' := Next(l, s, Insert(payload));
    NobodyRecords(s.workers, |s.rows|);
    forall i | 0 <= i < |s.rows| ensures RowAccounted(s', i) {
      assert RowAccounted(s, i);
    }
    forall w | 0 <= w < |s.workers| ensures Delivered(s', s.workers[w]) {
      assert Delivered(s, s.workers[w]) && InTable(Hand(s.workers[w]), |s.rows|);
    }
  }

  lemma WorkerAccountsRows(l: Limits, s: State, step: Step, w: nat)
    requires Accounted(s) && Enabled(l, s, step)
    requires !step.Insert? && !step.Tick? && step.worker == w
    ensures var s' := Next(l, s, step);
      |s'.tallies| == |s'.rows| == |s.rows| && forall i :: 0 <= i < |s'.rows| ==> RowAccounted(s', i)
  {
    var s' := Next(l, s, step);
    assert InTable(Hand(s.workers[w]), |s.rows|) && Delivered(s, s.workers[w]);
    forall i | 0 <= i < |s'.rows| ensures RowAccounted(s', i) {
      assert RowAccounted(s, i);
      RecordingPut(s.workers, w, s'.workers[w], i);
    }
  }

  /** One worker moves on and at most the row it works on changes. */
  lemma WorkerAccounted(l: Limits, s: State, step: Step, w: nat)
    requires Accounted(s) && Enabled(l, s, step)
    requires !step.Insert? && !step.Tick? && step.worker == w
    ensures Accounted(Next(l, s, step))
  {
    var s' := Next(l, s, step);
    WorkerAccountsRows(l, s, step, w);
    forall v | 0 <= v < |s'.workers| ensures Delivered(s', s'.workers[v]) && InTable(Hand(s'.workers[v]), |s'.rows|) {
      assert Delivered(s, s.workers[v]) && InTable(Hand(s.workers[v]), |s.rows|);
    }
  }

  lemma AccountedStep(l: Limits, s: State, step: Step)
    requires Accounted(s) && Enabled(l, s, step)
    ensures Accounted(Next(l, s, step))
  {
    match step
    case Insert(payload) => InsertAccounted(l, s, payload);
    case Tick(_) =>
      var s' := Next(l, s, step);
      forall i | 0 <= i < |s.rows| ensures RowAccounted(s', i) {
        assert RowAccounted(s, i);
      }
      forall w | 0 <= w < |s.workers| ensures Delivered(s', s.workers[w]) {
        assert Delivered(s, s.workers[w]);
      }
    case _ => WorkerAccounted(l, s, step, step.worker);
  }

  lemma {:induction false} RunAccounted(l: Limits, run: seq<State>, steps: seq<Step>, k: nat)
    requires Run(l, run, steps) && k < |run| && Initial(run[0])
    ensures Accounted(run[k])
  {
    if k > 0 {
      RunAccounted(l, run, steps, k - 1);
      assert StepAt(l, run[k - 1], steps[k - 1], run[k]);
      AccountedStep(l, run[k - 1], steps[k - 1]);
    } else {
      forall w | 0 <= w < |run[0].workers| ensures InTable(Hand(run[0].workers[w]), 0) {
      }
    }
  }

  /**
   * In every run, with or without exclusion: a processed row was delivered at least once, and a row's
   * failed publishes are its retries, the retry writes that were lost, and those about to be written.
   */
  lemma OutboxAccounting(l: Limits, run: seq<State>, steps: seq<Step>, k: nat, i: nat)
    requires Run(l, run, steps) && k < |run| && Initial(run[0]) && i < |run[k].rows|
    ensures |run[k].tallies| == |run[k].rows| && RowAccounted(run[k], i)
  {
    RunAccounted(l, run, steps, k);
  }

  // ---- What exclusion buys -------------------------------------------------------------------

  /** A step keeps the rows it is given, adds none to the parked ones' changes, and never passes the cap. */
  lemma CapStep(l: Limits, s: State, step: Step)
    requires Exclusive(l, s) && Enabled(l, s, step) && Shaped(s)
    requires forall i :: 0 <= i < |s.rows| ==> s.rows[i].retries <= l.config.maxRetries
    ensures var rows' := Next(l, s, step).rows;
      && ParkedKept(l.config, s.rows, rows')
      && forall i :: 0 <= i < |rows'| ==> rows'[i].retries <= l.config.maxRetries
  {
    if step.Finalize? {
      assert StageGood(l, s, s.workers[step.worker]);
      assert Mine(l, s.rows[s.workers[step.worker].todo[0]], s.workers[step.worker].lease);
    }
  }

  lemma {:induction false} RunCapped(l: Limits, run: seq<State>, steps: seq<Step>, k: nat)
    requires Run(l, run, steps) && k < |run| && Initial(run[0]) && LeaseSuffices(l)
    ensures forall i :: 0 <= i < |run[k].rows| ==> run[k].rows[i].retries <= l.config.maxRetries
  {
    if k > 0 {
      RunCapped(l, run, steps, k - 1);
      RunKeeps(l, run, steps, k - 1);
      assert StepAt(l, run[k - 1], steps[k - 1], run[k]);
      CapStep(l, run[k - 1], steps[k - 1]);
    }
  }

  /** Retries never exceed the cap, and a parked row stays as it is for the rest of the run. */
  lemma {:induction false} ParkedForever(l: Limits, run: seq<State>, steps: seq<Step>, k: nat, m: nat)
    requires Run(l, run, steps) && k <= m < |run| && Initial(run[0]) && LeaseSuffices(l)
    ensures forall i :: 0 <= i < |run[m].rows| ==> run[m].rows[i].retries <= l.config.maxRetries
    ensures ParkedKept(l.config, run[k].rows, run[m].rows)
    decreases m
  {
    RunCapped(l, run, steps, m);
    if k < m {
      ParkedForever(l, run, steps, k, m - 1);
      RunKeeps(l, run, steps, m - 1);
      assert StepAt(l, run[m - 1], steps[m - 1], run[m]);
      CapStep(l, run[m - 1], steps[m - 1]);
    }
  }

  lemma {:induction false} ClockRuns(l: Limits, run: seq<State>, steps: seq<Step>, k: nat, m: nat)
    requires Run(l, run, steps) && k <= m < |run|
    ensures run[k].now <= run[m].now
    decreases m
  {
    if k < m {
      ClockRuns(l, run, steps, k, m - 1);
      assert StepAt(l, run[m - 1], steps[m - 1], run[m]);
    }
  }

  /**
   * A row behind `batchSize` parked ones is never claimed again by a tick that finds no row locked:
   * parked rows keep their places at the head of the query for good.
   */
  lemma StarvedForever(l: Limits, run: seq<State>, steps: seq<Step>, k: nat, m: nat, i: nat)
    requires Run(l, run, steps) && k <= m < |run| && Initial(run[0]) && LeaseSuffices(l)
    requires i < |run[k].rows| && ParkedBefore(l.config, run[k].rows, {}, run[k].now, i) >= l.config.batchSize
    ensures i !in Batch(l.config, run[m].rows, {}, run[m].now)
  {
    ParkedForever(l, run, steps, k, m);
    ClockRuns(l, run, steps, k, m);
    ParkedRowsStarve(l.config, run[k].rows, run[k].now, run[m].rows, run[m].now, i);
  }
}
