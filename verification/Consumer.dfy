// The Kafka consumer loop: fetch, handle in place until it succeeds, commit, go on. A topic partition is
// append-only, and the committed offset is one cursor: everything below it will not be fetched again.
module Consumer {
  datatype Record<T> = Poison | Payload(value: T)

  /** One turn of the inner loop: the handler's answer, and whether the broker takes the commit. */
  datatype Try = Try(handled: bool, stored: bool)

  /** The next offset to fetch, the committed cursor, and the offsets the handler has accepted so far. */
  datatype Progress = Progress(next: nat, committed: nat, done: seq<nat>)

  /** handleOne: a payload that does not parse is committed, so that it is skipped. */
  function Commits<T>(r: Record<T>, handled: bool): bool {
    r.Poison? || handled
  }

  function Accepted<T>(done: seq<nat>, offset: nat, r: Record<T>): seq<nat> {
    if r.Poison? then done else done + [offset]
  }

  function Attempt<T>(p: Progress, topic: seq<Record<T>>, t: Try): Progress {
    if p.next >= |topic| || !Commits(topic[p.next], t.handled) then p
    else Progress(p.next + 1, if t.stored then p.next + 1 else p.committed, Accepted(p.done, p.next, topic[p.next]))
  }

  /** One life of the process: attempts until its script of outcomes runs out. */
  function Drive<T>(p: Progress, topic: seq<Record<T>>, script: seq<Try>): Progress {
    if script == [] then p
    else Attempt(Drive(p, topic, script[..|script| - 1]), topic, script[|script| - 1])
  }

  /** A restarted process resumes at the committed cursor. */
  function Restart(p: Progress): Progress {
    p.(next := p.committed)
  }

  class Runner<T> {
    var next: nat
    var committed: nat
    var done: seq<nat>

    function State(): Progress
      reads this
    {
      Progress(next, committed, done)
    }

    constructor (p: Progress)
      ensures State() == p
    {
      next, committed, done := p.next, p.committed, p.done;
    }

    method HandleOne(offset: nat, r: Record<T>, handled: bool) returns (commit: bool)
      modifies this`done
      ensures commit == Commits(r, handled)
      ensures done == if commit then Accepted(old(done), offset, r) else old(done)
    {
      if r.Poison? {
        return true;
      }
      if !handled {
        return false;
      }
      done := done + [offset];
      return true;
    }

    /** Runs until the context is cancelled, here when `script` or the topic is used up. */
    method Run(topic: seq<Record<T>>, script: seq<Try>)
      modifies this
      ensures State() == Drive(old(State()), topic, script)
    {
      var i := 0;
      while i < |script| && next < |topic|
        invariant i <= |script|
        invariant State() == Drive(old(State()), topic, script[..i])
        decreases |script| - i
      {
        var msg, offset := topic[next], next;
        ghost var start := i;
        var retry := true;
        while retry && i < |script|
          invariant i <= |script| && offset < |topic| && topic[offset] == msg
          invariant retry ==> next == offset
          invariant State() == Drive(old(State()), topic, script[..i])
          invariant start <= i && (retry || start < i)
          decreases |script| - i
        {
          var t := script[i];
          assert script[..i + 1][..i] == script[..i];
          var commit := HandleOne(offset, msg, t.handled);
          if commit {
            if t.stored {
              committed := offset + 1;
            }
            next := offset + 1;
            retry := false;
          }
          i := i + 1;
        }
      }
      Idles(old(State()), topic, script, i);
    }
  }

  /** With nothing left to fetch the remaining script changes nothing. */
  lemma {:induction false} Idles<T>(p: Progress, topic: seq<Record<T>>, script: seq<Try>, i: nat)
    requires i <= |script| && (i == |script| || Drive(p, topic, script[..i]).next >= |topic|)
    ensures Drive(p, topic, script) == Drive(p, topic, script[..i])
  {
    if i < |script| {
      var init := script[..|script| - 1];
      assert init[..i] == script[..i];
      Idles(p, topic, init, i);
    } else {
      assert script[..i] == script;
    }
  }

  // ---- The cursor's invariant ----------------------------------------------------------------

  predicate Covered<T>(done: seq<nat>, topic: seq<Record<T>>, m: nat) {
    m < |topic| && (topic[m].Poison? || m in done)
  }

  /** Everything behind the next fetch was handled or is poison, and the committed cursor is behind it. */
  ghost predicate Sound<T>(p: Progress, topic: seq<Record<T>>) {
    && p.committed <= p.next <= |topic|
    && forall m :: 0 <= m < p.next ==> Covered(p.done, topic, m)
  }

  lemma AttemptSound<T>(p: Progress, topic: seq<Record<T>>, t: Try)
    requires Sound(p, topic)
    ensures Sound(Attempt(p, topic, t), topic)
    ensures Attempt(p, topic, t).committed >= p.committed
  {
    var p' := Attempt(p, topic, t);
    forall m | 0 <= m < p'.next ensures Covered(p'.done, topic, m) {
      assert m < p.next ==> Covered(p.done, topic, m);
    }
  }

  lemma AppendSound<T>(p: Progress, topic: seq<Record<T>>, r: Record<T>)
    requires Sound(p, topic)
    ensures Sound(p, topic + [r])
  {
    forall m | 0 <= m < p.next ensures Covered(p.done, topic + [r], m) {
      assert Covered(p.done, topic, m);
    }
  }

  lemma RestartSound<T>(p: Progress, topic: seq<Record<T>>)
    requires Sound(p, topic)
    ensures Sound(Restart(p), topic)
  {
  }

  // ---- Runs ----------------------------------------------------------------------------------

  datatype Move<T> = Append(record: Record<T>) | Tries(try: Try) | Restarts

  datatype Stream<T> = Stream(topic: seq<Record<T>>, progress: Progress)

  function Next<T>(s: Stream<T>, m: Move<T>): Stream<T> {
    match m
    case Append(r) => s.(topic := s.topic + [r])
    case Tries(t) => s.(progress := Attempt(s.progress, s.topic, t))
    case Restarts => s.(progress := Restart(s.progress))
  }

  function Run<T>(moves: seq<Move<T>>): Stream<T> {
    if moves == [] then Stream([], Progress(0, 0, []))
    else Next(Run(moves[..|moves| - 1]), moves[|moves| - 1])
  }

  /** At least once: in every run with failed handlers, lost commits and restarts, nothing is skipped. */
  lemma {:induction false} NothingSkipped<T>(moves: seq<Move<T>>)
    ensures var s := Run(moves); Sound(s.progress, s.topic)
  {
    if moves != [] {
      var s := Run(moves[..|moves| - 1]);
      NothingSkipped(moves[..|moves| - 1]);
      match moves[|moves| - 1]
      case Append(r) => AppendSound(s.progress, s.topic, r);
      case Tries(t) => AttemptSound(s.progress, s.topic, t);
      case Restarts => RestartSound(s.progress, s.topic);
    }
  }

  /** The committed cursor never moves back. */
  lemma {:induction false} CursorAdvances<T>(moves: seq<Move<T>>)
    requires moves != []
    ensures Run(moves[..|moves| - 1]).progress.committed <= Run(moves).progress.committed
  {
    var s := Run(moves[..|moves| - 1]);
    NothingSkipped(moves[..|moves| - 1]);
    if moves[|moves| - 1].Tries? {
      AttemptSound(s.progress, s.topic, moves[|moves| - 1].try);
    }
  }

  /** A handler that keeps refusing a message stops the partition there. */
  lemma {:induction false} RefusalBlocks<T>(p: Progress, topic: seq<Record<T>>, script: seq<Try>)
    requires p.next < |topic| && topic[p.next].Payload? && forall i :: 0 <= i < |script| ==> !script[i].handled
    ensures Drive(p, topic, script) == p
  {
    if script != [] {
      RefusalBlocks(p, topic, script[..|script| - 1]);
    }
  }

  /** A payload that does not parse is skipped, whatever the handler would say, and counts for nothing. */
  lemma PoisonIsSkipped<T>(p: Progress, topic: seq<Record<T>>, t: Try)
    requires p.next < |topic| && topic[p.next].Poison?
    ensures var p' := Attempt(p, topic, t);
      && p'.next == p.next + 1 && p'.done == p.done && p'.committed == if t.stored then p.next + 1 else p.committed
  {
  }

  /** The cursor moves past a message exactly when it is poison or the handler accepted it. */
  lemma MovesOnIff<T>(p: Progress, topic: seq<Record<T>>, t: Try)
    requires p.next < |topic|
    ensures Attempt(p, topic, t).next == p.next + 1 <==> topic[p.next].Poison? || t.handled
    ensures Attempt(p, topic, t).next == p.next || Attempt(p, topic, t).next == p.next + 1
    ensures Attempt(p, topic, t).committed == p.committed ||
            (t.stored && Attempt(p, topic, t).committed == Attempt(p, topic, t).next == p.next + 1)
  {
  }

  /** With a handler that accepts and a broker that stores, as many attempts as messages are left take the consumer to the end. */
  lemma {:induction false} ConsumesAll<T>(p: Progress, topic: seq<Record<T>>, script: seq<Try>)
    requires p.next <= |topic| && p.committed == p.next
    requires forall i :: 0 <= i < |script| ==> script[i].handled && script[i].stored
    ensures var p' := Drive(p, topic, script);
      && p'.committed == p'.next == (if p.next + |script| <= |topic| then p.next + |script| else |topic|)
  {
    if script != [] {
      ConsumesAll(p, topic, script[..|script| - 1]);
    }
  }

  /** At least once, and not at most once: a message whose commit was lost is handled again after a restart. */
  lemma LostCommitHandlesTwice<T>(p: Progress, topic: seq<Record<T>>)
    requires p.next == p.committed < |topic| && topic[p.next].Payload?
    ensures var p1 := Restart(Attempt(p, topic, Try(true, false)));
      && p1.next == p1.committed == p.committed
      && Attempt(p1, topic, Try(true, true)).done == p.done + [p.next, p.next]
  {
  }
}
