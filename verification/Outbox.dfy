// The transactional outbox: the table in creation order, the claim query and the worker's tick.
module Outbox {
  import opened Wrappers
  import opened Clock
  import opened Sequences

  datatype Row = Row(payload: string, processed: bool, retries: nat, claimedUntil: Option<Millis>)

  datatype Config = Config(batchSize: nat, maxRetries: nat, claimLease: Millis)

  // ---- The claim query -----------------------------------------------------------------------

  predicate Due(row: Row, now: Millis) {
    !row.processed && (row.claimedUntil.None? || row.claimedUntil.value < now)
  }

  /** A row that the query returns unless `limit` earlier ones come first. */
  predicate Eligible(rows: seq<Row>, locked: set<nat>, now: Millis, i: nat) {
    i < |rows| && Due(rows[i], now) && i !in locked
  }

  predicate InTable(ids: seq<nat>, n: nat) {
    forall k :: 0 <= k < |ids| ==> ids[k] < n
  }

  /** `ORDER BY created_at LIMIT limit FOR UPDATE SKIP LOCKED` over the first `k` rows. */
  function Selected(rows: seq<Row>, locked: set<nat>, now: Millis, limit: nat, k: nat): (s: seq<nat>)
    requires k <= |rows|
    ensures |s| <= limit
    ensures InTable(s, k) && forall i :: i in s ==> Eligible(rows, locked, now, i)
  {
    if k == 0 then []
    else
      var s := Selected(rows, locked, now, limit, k - 1);
      if |s| < limit && Eligible(rows, locked, now, k - 1) then s + [k - 1] else s
  }

  /** How many eligible rows were created before row `k`. */
  function EligibleBefore(rows: seq<Row>, locked: set<nat>, now: Millis, k: nat): nat
    requires k <= |rows|
  {
    if k == 0 then 0
    else EligibleBefore(rows, locked, now, k - 1) + if Eligible(rows, locked, now, k - 1) then 1 else 0
  }

  lemma {:induction false} SelectedOnce(rows: seq<Row>, locked: set<nat>, now: Millis, limit: nat, k: nat)
    requires k <= |rows|
    ensures NoDuplicates(Selected(rows, locked, now, limit, k))
  {
    if k > 0 {
      SelectedOnce(rows, locked, now, limit, k - 1);
    }
  }

  lemma {:induction false} SelectedCount(rows: seq<Row>, locked: set<nat>, now: Millis, limit: nat, k: nat)
    requires k <= |rows|
    ensures var n := EligibleBefore(rows, locked, now, k);
      |Selected(rows, locked, now, limit, k)| == if n < limit then n else limit
  {
    if k > 0 {
      SelectedCount(rows, locked, now, limit, k - 1);
    }
  }

  /** A row is in the batch exactly when it is eligible and fewer than `limit` eligible rows precede it. */
  lemma {:induction false} SelectedIff(rows: seq<Row>, locked: set<nat>, now: Millis, limit: nat, k: nat, i: nat)
    requires i < k <= |rows|
    ensures i in Selected(rows, locked, now, limit, k) <==>
              Eligible(rows, locked, now, i) && EligibleBefore(rows, locked, now, i) < limit
  {
    SelectedCount(rows, locked, now, limit, k - 1);
    if i < k - 1 {
      SelectedIff(rows, locked, now, limit, k - 1, i);
    }
  }

  // ---- Claiming ------------------------------------------------------------------------------

  predicate Parked(c: Config, row: Row) {
    row.retries >= c.maxRetries
  }

  /** The rows of a batch that the worker goes on to lease. */
  function Unparked(c: Config, rows: seq<Row>, ids: seq<nat>): (s: seq<nat>)
    requires InTable(ids, |rows|)
    ensures |s| <= |ids| && InTable(s, |rows|)
    ensures forall i :: i in s <==> i in ids && !Parked(c, rows[i])
  {
    if ids == [] then []
    else
      var s := Unparked(c, rows, ids[..|ids| - 1]);
      if Parked(c, rows[ids[|ids| - 1]]) then s else s + [ids[|ids| - 1]]
  }

  lemma {:induction false} UnparkedOnce(c: Config, rows: seq<Row>, ids: seq<nat>)
    requires NoDuplicates(ids) && InTable(ids, |rows|)
    ensures NoDuplicates(Unparked(c, rows, ids))
  {
    if ids != [] {
      UnparkedOnce(c, rows, ids[..|ids| - 1]);
    }
  }

  /** The table once a claim transaction has leased `ids`. */
  function Leased(rows: seq<Row>, ids: seq<nat>, lease: Millis): (r: seq<Row>)
    ensures |r| == |rows|
  {
    seq(|rows|, i requires 0 <= i < |rows| =>
      if i in ids then rows[i].(claimedUntil := Some(lease)) else rows[i])
  }

  lemma LeaseOne(rows: seq<Row>, ids: seq<nat>, lease: Millis, id: nat)
    requires id < |rows|
    ensures var r := Leased(rows, ids, lease);
      r[id := r[id].(claimedUntil := Some(lease))] == Leased(rows, ids + [id], lease)
  {
  }

  /** The first `k` rows of the batch have been gone through. */
  predicate ClaimedUpTo(c: Config, was: seq<Row>, ids: seq<nat>, k: nat, lease: Millis, claimed: seq<nat>, rows: seq<Row>) {
    && k <= |ids| && InTable(ids, |was|)
    && claimed == Unparked(c, was, ids[..k]) && rows == Leased(was, claimed, lease)
  }

  lemma ClaimBegins(c: Config, was: seq<Row>, ids: seq<nat>, lease: Millis)
    requires InTable(ids, |was|)
    ensures ClaimedUpTo(c, was, ids, 0, lease, [], was)
  {
  }

  lemma ClaimGoesOn(
      c: Config, was: seq<Row>, ids: seq<nat>, k: nat, lease: Millis, claimed: seq<nat>, rows: seq<Row>)
    requires k < |ids| && ClaimedUpTo(c, was, ids, k, lease, claimed, rows)
    ensures rows[ids[k]].retries == was[ids[k]].retries
    ensures if Parked(c, was[ids[k]]) then ClaimedUpTo(c, was, ids, k + 1, lease, claimed, rows)
            else ClaimedUpTo(c, was, ids, k + 1, lease, claimed + [ids[k]],
                             rows[ids[k] := rows[ids[k]].(claimedUntil := Some(lease))])
  {
    assert ids[..k + 1][..k] == ids[..k];
    LeaseOne(was, claimed, lease, ids[k]);
  }

  lemma ClaimEnds(c: Config, was: seq<Row>, ids: seq<nat>, lease: Millis, claimed: seq<nat>, rows: seq<Row>)
    requires ClaimedUpTo(c, was, ids, |ids|, lease, claimed, rows)
    ensures claimed == Unparked(c, was, ids) && rows == Leased(was, claimed, lease)
  {
    assert ids[..|ids|] == ids;
  }

  function Batch(c: Config, rows: seq<Row>, locked: set<nat>, now: Millis): (s: seq<nat>)
    ensures InTable(s, |rows|)
  {
    Unparked(c, rows, Selected(rows, locked, now, c.batchSize, |rows|))
  }

  /**
   * Progress: the oldest due row that is neither parked nor locked is claimed by the tick exactly when
   * fewer than `batchSize` due rows, all of them parked, stand before it.
   */
  lemma OldestIsClaimedIff(c: Config, rows: seq<Row>, locked: set<nat>, now: Millis, i: nat)
    requires Eligible(rows, locked, now, i) && !Parked(c, rows[i])
    requires forall j: nat :: j < i && Eligible(rows, locked, now, j) ==> Parked(c, rows[j])
    ensures i in Batch(c, rows, locked, now) <==> ParkedBefore(c, rows, locked, now, i) < c.batchSize
  {
    SelectedIff(rows, locked, now, c.batchSize, |rows|, i);
    AllParkedBefore(c, rows, locked, now, i);
  }

  function ParkedBefore(c: Config, rows: seq<Row>, locked: set<nat>, now: Millis, k: nat): nat
    requires k <= |rows|
  {
    if k == 0 then 0
    else
      ParkedBefore(c, rows, locked, now, k - 1) +
        if Eligible(rows, locked, now, k - 1) && Parked(c, rows[k - 1]) then 1 else 0
  }

  lemma {:induction false} AllParkedBefore(c: Config, rows: seq<Row>, locked: set<nat>, now: Millis, k: nat)
    requires k <= |rows|
    requires forall j: nat :: j < k && Eligible(rows, locked, now, j) ==> Parked(c, rows[j])
    ensures EligibleBefore(rows, locked, now, k) == ParkedBefore(c, rows, locked, now, k)
  {
    if k > 0 {
      AllParkedBefore(c, rows, locked, now, k - 1);
    }
  }

  /** A row behind `batchSize` parked ones is skipped by every later tick that finds no row locked. */
  lemma ParkedRowsStarve(c: Config, rows: seq<Row>, now: Millis, later: seq<Row>, now': Millis, i: nat)
    requires i < |rows| <= |later| && now <= now'
    requires ParkedBefore(c, rows, {}, now, i) >= c.batchSize
    requires ParkedKept(c, rows, later)
    ensures i !in Batch(c, later, {}, now')
  {
    StillParked(c, rows, now, later, now', i);
    SelectedIff(later, {}, now', c.batchSize, |later|, i);
  }

  predicate ParkedKept(c: Config, rows: seq<Row>, later: seq<Row>) {
    |rows| <= |later| && forall j :: 0 <= j < |rows| && Parked(c, rows[j]) ==> later[j] == rows[j]
  }

  lemma {:induction false} StillParked(
    c: Config, rows: seq<Row>, now: Millis, later: seq<Row>, now': Millis, k: nat)
    requires k <= |rows| <= |later| && now <= now' && ParkedKept(c, rows, later)
    ensures ParkedBefore(c, rows, {}, now, k) <= EligibleBefore(later, {}, now', k)
  {
    if k > 0 {
      StillParked(c, rows, now, later, now', k - 1);
    }
  }

  // ---- The worker ----------------------------------------------------------------------------

  /** What becomes of one claimed row: the broker's answer, and whether the write that follows gets through. */
  datatype Outcome = Outcome(published: bool, recorded: bool)

  function Finished(row: Row, o: Outcome): Row {
    if !o.recorded then row
    else if o.published then row.(processed := true)
    else row.(retries := row.retries + 1)
  }

  /** The table after the claimed rows have had their outcomes, in order. */
  function AllFinished(rows: seq<Row>, ids: seq<nat>, outcomes: seq<Outcome>): (r: seq<Row>)
    requires |ids| == |outcomes| && InTable(ids, |rows|)
    ensures |r| == |rows|
  {
    if ids == [] then rows
    else
      var last := |ids| - 1;
      var before := AllFinished(rows, ids[..last], outcomes[..last]);
      before[ids[last] := Finished(before[ids[last]], outcomes[last])]
  }

  /** The first `k` claimed rows have had their outcomes. */
  predicate FinishedUpTo(was: seq<Row>, ids: seq<nat>, outcomes: seq<Outcome>, k: nat, rows: seq<Row>) {
    && k <= |ids| <= |outcomes| && InTable(ids, |was|) && |rows| == |was|
    && rows == AllFinished(was, ids[..k], outcomes[..k])
  }

  lemma FinishBegins(was: seq<Row>, ids: seq<nat>, outcomes: seq<Outcome>)
    requires |ids| <= |outcomes| && InTable(ids, |was|)
    ensures FinishedUpTo(was, ids, outcomes, 0, was)
  {
  }

  lemma FinishGoesOn(was: seq<Row>, ids: seq<nat>, outcomes: seq<Outcome>, k: nat, rows: seq<Row>)
    requires k < |ids| && FinishedUpTo(was, ids, outcomes, k, rows)
    ensures ids[k] < |rows|
    ensures FinishedUpTo(was, ids, outcomes, k + 1, rows[ids[k] := Finished(rows[ids[k]], outcomes[k])])
  {
    assert ids[..k + 1][..k] == ids[..k] && outcomes[..k + 1][..k] == outcomes[..k];
  }

  lemma FinishEnds(was: seq<Row>, ids: seq<nat>, outcomes: seq<Outcome>, rows: seq<Row>)
    requires FinishedUpTo(was, ids, outcomes, |ids|, rows)
    ensures rows == AllFinished(was, ids, outcomes[..|ids|])
  {
    assert ids[..|ids|] == ids;
  }

  class Worker {
    const config: Config
    var rows: seq<Row>

    constructor (config: Config)
      ensures this.config == config && rows == []
    {
      this.config := config;
      rows := [];
    }

    method Insert(payload: string)
      modifies this
      ensures rows == old(rows) + [Row(payload, false, 0, None)]
    {
      rows := rows + [Row(payload, false, 0, None)];
    }

    method GetUnprocessedBatch(limit: nat, locked: set<nat>, now: Millis) returns (ids: seq<nat>)
      ensures ids == Selected(rows, locked, now, limit, |rows|)
    {
      ids := [];
      var i := 0;
      while i < |rows|
        invariant i <= |rows|
        invariant ids == Selected(rows, locked, now, limit, i)
      {
        if |ids| < limit && Due(rows[i], now) && i !in locked {
          ids := ids + [i];
        }
        i := i + 1;
      }
    }

    method SetClaimedUntil(id: nat, until: Millis)
      requires id < |rows|
      modifies this
      ensures rows == old(rows)[id := old(rows)[id].(claimedUntil := Some(until))]
    {
      rows := rows[id := rows[id].(claimedUntil := Some(until))];
    }

    method MarkProcessed(id: nat)
      requires id < |rows|
      modifies this
      ensures rows == old(rows)[id := old(rows)[id].(processed := true)]
    {
      rows := rows[id := rows[id].(processed := true)];
    }

    method IncrementRetries(id: nat)
      requires id < |rows|
      modifies this
      ensures rows == old(rows)[id := old(rows)[id].(retries := old(rows)[id].retries + 1)]
    {
      rows := rows[id := rows[id].(retries := rows[id].retries + 1)];
    }

    /** `now` is the database's clock at the start of the transaction, `at` the worker's after the query. */
    method ClaimBatch(locked: set<nat>, now: Millis, at: Millis) returns (claimed: seq<nat>)
      modifies this
      ensures claimed == Batch(config, old(rows), locked, now)
      ensures rows == Leased(old(rows), claimed, Rfc3339(at + config.claimLease))
    {
      var ids := GetUnprocessedBatch(config.batchSize, locked, now);
      var lease := Rfc3339(at + config.claimLease);
      ghost var was := rows;
      claimed := [];
      var k := 0;
      ClaimBegins(config, was, ids, lease);
      while k < |ids|
        invariant k <= |ids| && |rows| == |was|
        invariant ClaimedUpTo(config, was, ids, k, lease, claimed, rows)
      {
        var id := ids[k];
        ClaimGoesOn(config, was, ids, k, lease, claimed, rows);
        if rows[id].retries < config.maxRetries {
          SetClaimedUntil(id, lease);
          claimed := claimed + [id];
        }
        k := k + 1;
      }
      ClaimEnds(config, was, ids, lease, claimed, rows);
    }

    method PublishOne(id: nat, o: Outcome)
      requires id < |rows|
      modifies this
      ensures rows == old(rows)[id := Finished(old(rows)[id], o)]
    {
      if !o.published {
        if o.recorded {
          IncrementRetries(id);
        }
        return;
      }
      if o.recorded {
        MarkProcessed(id);
      }
    }

    /** One tick; `outcomes` holds an answer for every row that the batch could hold. */
    method ProcessBatch(locked: set<nat>, now: Millis, at: Millis, outcomes: seq<Outcome>)
      requires |outcomes| == config.batchSize
      modifies this
      ensures var claimed := Batch(config, old(rows), locked, now);
        var leased := Leased(old(rows), claimed, Rfc3339(at + config.claimLease));
        && |claimed| <= |outcomes|
        && rows == AllFinished(leased, claimed, outcomes[..|claimed|])
    {
      var claimed := ClaimBatch(locked, now, at);
      ghost var leased := rows;
      var k := 0;
      FinishBegins(leased, claimed, outcomes);
      while k < |claimed|
        invariant k <= |claimed|
        invariant FinishedUpTo(leased, claimed, outcomes, k, rows)
      {
        FinishGoesOn(leased, claimed, outcomes, k, rows);
        PublishOne(claimed[k], outcomes[k]);
        k := k + 1;
      }
      FinishEnds(leased, claimed, outcomes, rows);
    }
  }

  /** What a tick does to each row: leased and finished by its own outcome when claimed, else untouched. */
  lemma {:induction false} FinishedRowwise(rows: seq<Row>, ids: seq<nat>, outcomes: seq<Outcome>, i: nat)
    requires |ids| == |outcomes| && NoDuplicates(ids) && i < |rows| && InTable(ids, |rows|)
    ensures i !in ids ==> AllFinished(rows, ids, outcomes)[i] == rows[i]
    ensures forall k :: 0 <= k < |ids| && ids[k] == i ==>
              AllFinished(rows, ids, outcomes)[i] == Finished(rows[i], outcomes[k])
  {
    if ids != [] {
      var last := |ids| - 1;
      FinishedRowwise(rows, ids[..last], outcomes[..last], i);
      assert ids == ids[..last] + [ids[last]];
      forall k | 0 <= k < last ensures ids[..last][k] == ids[k] && outcomes[..last][k] == outcomes[k] {
      }
    }
  }
}
