// The worker that runs a tick statement by statement, and the timed steps that its exclusion is proved for,
// do the same to the table.
module OutboxSteps {
  import opened Clock
  import opened Outbox
  import opened OutboxTiming

  /** Selecting and committing at once leases and takes on exactly the batch that the worker claims. */
  lemma {:induction false} ClaimIsSelectAndCommit(l: Limits, s: State, w: nat, started: Millis, at: Millis)
    requires Shaped(s) && Enabled(l, s, Select(w, started)) && s.now <= at <= s.now && 0 <= l.claimDelay
    ensures var s1 := Next(l, s, Select(w, started));
      Shaped(s1) && Enabled(l, s1, Commit(w, at)) &&
      var s2 := Next(l, s1, Commit(w, at)); var claimed := Batch(l.config, s.rows, Locked(s.workers), started);
      && s2.rows == Leased(s.rows, claimed, Rfc3339(at + l.config.claimLease))
      && w < |s2.workers| && Hand(s2.workers[w]) == claimed
  {
  }

  /** Writing a row's result is what the worker's publish of that row comes to. */
  lemma {:induction false} WriteIsPublishOne(l: Limits, s: State, w: nat, recorded: bool)
    requires Shaped(s) && Enabled(l, s, Finalize(w, recorded))
    ensures var st := s.workers[w]; var s' := Next(l, s, Finalize(w, recorded));
      && s'.rows == s.rows[st.todo[0] := Finished(s.rows[st.todo[0]], Outcome(st.published, recorded))]
      && Hand(s'.workers[w]) == st.todo[1..]
  {
  }

  /** What the worker's write does to the row: mark it, count the failure, or nothing when the write is lost. */
  lemma FinishedMeans(row: Row, o: Outcome)
    ensures o.recorded && o.published ==> Finished(row, o) == row.(processed := true)
    ensures o.recorded && !o.published ==> Finished(row, o) == row.(retries := row.retries + 1)
    ensures !o.recorded ==> Finished(row, o) == row
  {
  }
}
