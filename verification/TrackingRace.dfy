// The rendezvous of one ride's two events, one Redis command at a time: any number of deliveries of each,
// interleaved in any way and stopped anywhere. The pipeline that opens a window is not a transaction, so
// other handlers' commands may fall between its own. Other rides go on meanwhile.
module TrackingRace {
  import opened Tracking

  datatype Event = RideRequested | RideAccepted(at: Stamp)

  /** The command a handler sends next, or how it ended. */
  datatype Stage =
    | SetOwn | GetOther
    | WriteWindow | ExpireWindow | PointDriver | PointClient | AddIndex | DropPending
    | Waits | Opened | Aborted

  datatype Handler = Handler(event: Event, stage: Stage, window: Participants)

  /** `cleared` remembers that some handler has dropped the pending keys. */
  datatype State = State(keys: Keys, handlers: seq<Handler>, cleared: bool)

  datatype Step =
    | Deliver(event: Event)
    | Advance(h: nat, now: Stamp)
    | Abort(h: nat)
    | Elsewhere(keys: Keys)

  function Effect(k: Keys, t: Trip, h: Handler): Keys {
    if h.stage.SetOwn? then
      (if h.event.RideRequested? then SetPendingClient(k, t) else SetPendingDriver(k, t, h.event.at))
    else if h.stage.WriteWindow? then WriteParticipants(k, t.ride, h.window)
    else if h.stage.PointDriver? then SetDriverRide(k, h.window.driver, t.ride)
    else if h.stage.PointClient? then SetClientRide(k, h.window.client, t.ride)
    else if h.stage.AddIndex? then AddActive(k, t.ride)
    else if h.stage.DropPending? then DeletePending(k, t.ride)
    else k
  }

  /** The other side's key is there: on to the window; or it is not: this handler is done. */
  function Looked(k: Keys, t: Trip, h: Handler, now: Stamp): Handler {
    match h.event
    case RideRequested =>
      if t.ride !in k.pendingDriver then h.(stage := Waits)
      else
        var (driver, at) := ParseDriver(k.pendingDriver[t.ride], now);
        h.(stage := WriteWindow, window := Participants(t.client, driver, at))
    case RideAccepted(at) =>
      if t.ride !in k.pendingClient then h.(stage := Waits)
      else h.(stage := WriteWindow, window := Participants(k.pendingClient[t.ride], t.driver, at))
  }

  function After(stage: Stage): Stage {
    match stage
    case SetOwn => GetOther
    case WriteWindow => ExpireWindow
    case ExpireWindow => PointDriver
    case PointDriver => PointClient
    case PointClient => AddIndex
    case AddIndex => DropPending
    case DropPending => Opened
    case _ => stage
  }

  function Then(k: Keys, t: Trip, h: Handler, now: Stamp): Handler {
    if h.stage.GetOther? then Looked(k, t, h, now) else h.(stage := After(h.stage))
  }

  /** Nothing of this ride, and neither of its two people's own lookups, differs. */
  predicate SameRide(k: Keys, k': Keys, t: Trip) {
    && (t.ride in k.pendingClient <==> t.ride in k'.pendingClient)
    && (t.ride in k.pendingClient ==> k'.pendingClient[t.ride] == k.pendingClient[t.ride])
    && (t.ride in k.pendingDriver <==> t.ride in k'.pendingDriver)
    && (t.ride in k.pendingDriver ==> k'.pendingDriver[t.ride] == k.pendingDriver[t.ride])
    && (t.ride in k.participants <==> t.ride in k'.participants)
    && (t.ride in k.participants ==> k'.participants[t.ride] == k.participants[t.ride])
    && (DriverPoints(k, t) ==> DriverPoints(k', t))
    && (ClientPoints(k, t) ==> ClientPoints(k', t))
    && (t.ride in k.active ==> t.ride in k'.active)
  }

  predicate Enabled(s: State, t: Trip, step: Step) {
    match step
    case Deliver(event) => event.RideAccepted? ==> IsStamp(event.at)
    case Advance(h, _) => h < |s.handlers|
    case Abort(h) => h < |s.handlers|
    case Elsewhere(k) => SameRide(s.keys, k, t)
  }

  function Next(s: State, t: Trip, step: Step): State {
    if !Enabled(s, t, step) then s
    else
      match step
      case Deliver(event) => s.(handlers := s.handlers + [Handler(event, SetOwn, Participants("", "", ""))])
      case Advance(i, now) =>
        var h := s.handlers[i];
        State(Effect(s.keys, t, h), s.handlers[i := Then(s.keys, t, h, now)], s.cleared || h.stage.DropPending?)
      case Abort(i) => s.(handlers := s.handlers[i := s.handlers[i].(stage := Aborted)])
      case Elsewhere(k) => s.(keys := k)
  }

  function Run(start: Keys, t: Trip, steps: seq<Step>): State {
    if steps == [] then State(start, [], false)
    else Next(Run(start, t, steps[..|steps| - 1]), t, steps[|steps| - 1])
  }

  // ---- The invariant -------------------------------------------------------------------------

  /** The handler's own key was set, and nobody has dropped it since. */
  predicate OwnKeyStands(s: State, t: Trip, h: Handler) {
    s.cleared || (if h.event.RideRequested? then t.ride in s.keys.pendingClient else t.ride in s.keys.pendingDriver)
  }

  predicate WindowRight(t: Trip, w: Participants) {
    w.client == t.client && w.driver == t.driver
  }

  /** Set its own key, and did not crash. */
  predicate Announced(h: Handler) {
    !h.stage.SetOwn? && !h.stage.Aborted?
  }

  /** Saw both sides. */
  predicate Opening(h: Handler) {
    h.stage.WriteWindow? || h.stage.ExpireWindow? || h.stage.PointDriver? || h.stage.PointClient? ||
    h.stage.AddIndex? || h.stage.DropPending?
  }

  /** What a handler on its way through the pipeline has put in place. */
  predicate StageReached(k: Keys, t: Trip, stage: Stage) {
    && (stage.ExpireWindow? || stage.PointDriver? ==> ParticipantsRight(k, t))
    && (stage.PointClient? ==> ParticipantsRight(k, t) && DriverPoints(k, t))
    && (stage.AddIndex? ==> ParticipantsRight(k, t) && DriverPoints(k, t) && ClientPoints(k, t))
    && (stage.DropPending? ==> Open(k, t))
  }

  predicate HandlerSound(s: State, t: Trip, h: Handler) {
    && (Announced(h) ==> OwnKeyStands(s, t, h))
    && (Opening(h) ==> WindowRight(t, h.window))
    && StageReached(s.keys, t, h.stage)
    && (h.stage.Opened? ==> s.cleared)
    && (h.event.RideAccepted? ==> IsStamp(h.event.at))
  }

  ghost predicate PendingRight(k: Keys, t: Trip) {
    && (t.ride in k.pendingClient ==> k.pendingClient[t.ride] == t.client)
    && (t.ride in k.pendingDriver ==> exists at :: IsStamp(at) && k.pendingDriver[t.ride] == EncodeDriver(t.driver, at))
  }

  /** A handler of the event that found the other side's key missing. */
  ghost predicate Waiting(s: State, requested: bool) {
    exists i :: 0 <= i < |s.handlers| && s.handlers[i].stage.Waits? && s.handlers[i].event.RideRequested? == requested
  }

  ghost predicate Sound(s: State, t: Trip) {
    && (forall i :: 0 <= i < |s.handlers| ==> HandlerSound(s, t, s.handlers[i]))
    && PendingRight(s.keys, t)
    && (s.cleared ==> Open(s.keys, t))
    && (Waiting(s, true) && Waiting(s, false) ==> s.cleared)
  }

  /** What has been put in place for the ride stays in place. */
  predicate Grows(k: Keys, k': Keys, t: Trip) {
    && (ParticipantsRight(k, t) ==> ParticipantsRight(k', t))
    && (DriverPoints(k, t) ==> DriverPoints(k', t))
    && (ClientPoints(k, t) ==> ClientPoints(k', t))
    && (t.ride in k.active ==> t.ride in k'.active)
  }

  /** A pending key is dropped only by a handler that has cleared the rendezvous. */
  predicate PendingStays(s: State, s': State, t: Trip) {
    && (t.ride in s.keys.pendingClient ==> t.ride in s'.keys.pendingClient || s'.cleared)
    && (t.ride in s.keys.pendingDriver ==> t.ride in s'.keys.pendingDriver || s'.cleared)
    && (s.cleared ==> s'.cleared)
  }

  lemma HandlerKept(s: State, s': State, t: Trip, h: Handler)
    requires HandlerSound(s, t, h) && Grows(s.keys, s'.keys, t) && PendingStays(s, s', t)
    ensures HandlerSound(s', t, h)
  {
  }

  lemma EffectGrows(s: State, t: Trip, h: Handler)
    requires HandlerSound(s, t, h)
    ensures Grows(s.keys, Effect(s.keys, t, h), t)
  {
    if h.stage.WriteWindow? {
    } else if h.stage.PointDriver? {
    } else if h.stage.PointClient? {
    } else if h.stage.AddIndex? {
    }
  }

  lemma EffectPending(s: State, t: Trip, i: nat, now: Stamp)
    requires Sound(s, t) && i < |s.handlers|
    ensures PendingStays(s, Next(s, t, Advance(i, now)), t)
    ensures PendingRight(Effect(s.keys, t, s.handlers[i]), t)
  {
    var h := s.handlers[i];
    assert HandlerSound(s, t, h);
    if h.stage.SetOwn? && h.event.RideAccepted? {
      assert Effect(s.keys, t, h).pendingDriver[t.ride] == EncodeDriver(t.driver, h.event.at);
    } else if h.stage.DropPending? {
    } else {
      assert t.ride in s.keys.pendingDriver ==>
               Effect(s.keys, t, h).pendingDriver[t.ride] == s.keys.pendingDriver[t.ride];
    }
  }

  /** The handler that moved is where its stage says it is. */
  lemma MovedSound(s: State, t: Trip, i: nat, now: Stamp)
    requires Sound(s, t) && i < |s.handlers| && '|' !in t.driver
    ensures var s' := Next(s, t, Advance(i, now)); HandlerSound(s', t, s'.handlers[i])
  {
    var h := s.handlers[i];
    var s' := Next(s, t, Advance(i, now));
    assert HandlerSound(s, t, h);
    EffectGrows(s, t, h);
    EffectPending(s, t, i, now);
    if h.stage.GetOther? {
      LookedRight(s.keys, t, h, now);
    }
  }

  /** What a handler finds of the other side is right. */
  lemma LookedRight(k: Keys, t: Trip, h: Handler, now: Stamp)
    requires PendingRight(k, t) && '|' !in t.driver && h.stage.GetOther?
    ensures Opening(Looked(k, t, h, now)) ==> WindowRight(t, Looked(k, t, h, now).window)
    ensures Looked(k, t, h, now).stage.WriteWindow? || Looked(k, t, h, now).stage.Waits?
    ensures Looked(k, t, h, now).event == h.event
  {
    if h.event.RideRequested? && t.ride in k.pendingDriver {
      var at :| IsStamp(at) && k.pendingDriver[t.ride] == EncodeDriver(t.driver, at);
      DriverRoundTripIff(t.driver, at, now);
    }
  }

  /** Two handlers cannot both miss each other: the one that looked later saw the other's key. */
  lemma {:induction false} NotBothWait(s: State, t: Trip, i: nat, now: Stamp)
    requires Sound(s, t) && i < |s.handlers| && '|' !in t.driver
    ensures var s' := Next(s, t, Advance(i, now)); Waiting(s', true) && Waiting(s', false) ==> s'.cleared
  {
    var s' := Next(s, t, Advance(i, now));
    var h := s.handlers[i];
    forall requested | Waiting(s', requested)
      ensures Waiting(s, requested) || (s'.handlers[i].stage.Waits? && !h.stage.Waits? && h.event.RideRequested? == requested)
    {
      var j :| 0 <= j < |s'.handlers| && s'.handlers[j].stage.Waits? && s'.handlers[j].event.RideRequested? == requested;
      if j != i {
        assert s.handlers[j] == s'.handlers[j];
      } else {
        LookedKeepsEvent(s.keys, t, h, now);
      }
    }
    forall requested | Waiting(s, requested) ensures s.cleared ||
        (if requested then t.ride in s.keys.pendingClient else t.ride in s.keys.pendingDriver)
    {
      var j :| 0 <= j < |s.handlers| && s.handlers[j].stage.Waits? && s.handlers[j].event.RideRequested? == requested;
      assert HandlerSound(s, t, s.handlers[j]);
    }
  }

  lemma LookedKeepsEvent(k: Keys, t: Trip, h: Handler, now: Stamp)
    ensures Then(k, t, h, now).event == h.event
    ensures Then(k, t, h, now).stage.Waits? && !h.stage.Waits? ==>
              h.stage.GetOther? && (if h.event.RideRequested? then t.ride !in k.pendingDriver else t.ride !in k.pendingClient)
  {
  }

  lemma AdvanceKeeps(s: State, t: Trip, i: nat, now: Stamp)
    requires Sound(s, t) && i < |s.handlers| && '|' !in t.driver
    ensures Sound(Next(s, t, Advance(i, now)), t)
  {
    var s' := Next(s, t, Advance(i, now));
    var h := s.handlers[i];
    assert HandlerSound(s, t, h);
    EffectGrows(s, t, h);
    EffectPending(s, t, i, now);
    MovedSound(s, t, i, now);
    NotBothWait(s, t, i, now);
    forall j | 0 <= j < |s'.handlers| ensures HandlerSound(s', t, s'.handlers[j]) {
      if j != i {
        HandlerKept(s, s', t, s.handlers[j]);
      }
    }
  }

  lemma OtherStepKeeps(s: State, t: Trip, step: Step)
    requires Sound(s, t) && Enabled(s, t, step) && !step.Advance?
    ensures Sound(Next(s, t, step), t)
  {
    var s' := Next(s, t, step);
    forall j | 0 <= j < |s'.handlers| ensures HandlerSound(s', t, s'.handlers[j]) {
      if j < |s.handlers| {
        assert HandlerSound(s, t, s.handlers[j]);
      }
    }
    forall requested | Waiting(s', requested) ensures Waiting(s, requested) {
      var j :| 0 <= j < |s'.handlers| && s'.handlers[j].stage.Waits? && s'.handlers[j].event.RideRequested? == requested;
      assert s.handlers[j] == s'.handlers[j];
    }
  }

  lemma {:induction false} RunSound(start: Keys, t: Trip, steps: seq<Step>)
    requires Closed(start, t.ride) && '|' !in t.driver
    ensures Sound(Run(start, t, steps), t)
  {
    if steps != [] {
      var last := |steps| - 1;
      var s := Run(start, t, steps[..last]);
      RunSound(start, t, steps[..last]);
      if Enabled(s, t, steps[last]) {
        if steps[last].Advance? {
          AdvanceKeeps(s, t, steps[last].h, steps[last].now);
        } else {
          OtherStepKeeps(s, t, steps[last]);
        }
      }
    }
  }

  // ---- Main results --------------------------------------------------------------------------

  predicate Finished(h: Handler, requested: bool) {
    h.event.RideRequested? == requested && (h.stage.Waits? || h.stage.Opened?)
  }

  /**
   * Rendezvous: once one handler of each event has finished, whatever the interleaving, the duplicates
   * and the crashes of others, the window is open with the right client and driver.
   */
  lemma Rendezvous(start: Keys, t: Trip, steps: seq<Step>, i: nat, j: nat)
    requires Closed(start, t.ride) && '|' !in t.driver
    requires var hs := Run(start, t, steps).handlers;
      i < |hs| && j < |hs| && Finished(hs[i], true) && Finished(hs[j], false)
    ensures Open(Run(start, t, steps).keys, t)
  {
    RunSound(start, t, steps);
    var s := Run(start, t, steps);
    assert HandlerSound(s, t, s.handlers[i]) && HandlerSound(s, t, s.handlers[j]);
    if s.handlers[i].stage.Waits? && s.handlers[j].stage.Waits? {
      assert Waiting(s, true) && Waiting(s, false);
    }
  }

  /** A pending key disappears only once the participants are written and everything points at the ride. */
  lemma PendingOutlivesTheWindow(start: Keys, t: Trip, steps: seq<Step>, step: Step)
    requires Closed(start, t.ride) && '|' !in t.driver
    requires var s := Run(start, t, steps); var s' := Next(s, t, step);
      (t.ride in s.keys.pendingClient && t.ride !in s'.keys.pendingClient) ||
      (t.ride in s.keys.pendingDriver && t.ride !in s'.keys.pendingDriver)
    ensures Open(Run(start, t, steps).keys, t)
  {
    RunSound(start, t, steps);
    var s := Run(start, t, steps);
    if Enabled(s, t, step) && step.Advance? {
      assert HandlerSound(s, t, s.handlers[step.h]);
    }
  }

  /** An open window stays open: late duplicates only write the same people again. */
  lemma OpenStaysOpen(start: Keys, t: Trip, steps: seq<Step>, step: Step)
    requires Closed(start, t.ride) && '|' !in t.driver && Open(Run(start, t, steps).keys, t)
    ensures Open(Next(Run(start, t, steps), t, step).keys, t)
  {
    RunSound(start, t, steps);
    var s := Run(start, t, steps);
    if Enabled(s, t, step) && step.Advance? {
      assert HandlerSound(s, t, s.handlers[step.h]);
      EffectGrows(s, t, s.handlers[step.h]);
    }
  }
}
