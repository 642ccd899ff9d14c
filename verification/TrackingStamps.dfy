// When a tracking window opens: at the time that some delivered ride.accepted carries, in every interleaving.
module TrackingStamps {
  import opened Wrappers
  import opened Sequences
  import opened Tracking
  import opened TrackingRace

  /** The time of an acceptance that was delivered during the run. */
  predicate Delivered(steps: seq<Step>, at: Stamp) {
    Deliver(RideAccepted(at)) in steps && IsStamp(at)
  }

  predicate HandlerDated(steps: seq<Step>, h: Handler) {
    && (h.event.RideAccepted? ==> Delivered(steps, h.event.at))
    && (Opening(h) ==> Delivered(steps, h.window.openedAt))
  }

  ghost predicate PendingDated(steps: seq<Step>, k: Keys, t: Trip) {
    t.ride in k.pendingDriver ==> exists at :: Delivered(steps, at) && k.pendingDriver[t.ride] == EncodeDriver(t.driver, at)
  }

  predicate WindowDated(steps: seq<Step>, k: Keys, ride: RideId) {
    ride in k.participants ==> Delivered(steps, k.participants[ride].openedAt)
  }

  ghost predicate Dated(steps: seq<Step>, s: State, t: Trip) {
    && (forall i :: 0 <= i < |s.handlers| ==> HandlerDated(steps, s.handlers[i]))
    && PendingDated(steps, s.keys, t) && WindowDated(steps, s.keys, t.ride)
  }

  lemma MoreSteps(steps: seq<Step>, step: Step, s: State, t: Trip)
    requires Dated(steps, s, t)
    ensures Dated(steps + [step], s, t)
  {
    if t.ride in s.keys.pendingDriver {
      var at :| Delivered(steps, at) && s.keys.pendingDriver[t.ride] == EncodeDriver(t.driver, at);
      assert Delivered(steps + [step], at);
    }
    forall i | 0 <= i < |s.handlers| ensures HandlerDated(steps + [step], s.handlers[i]) {
      assert HandlerDated(steps, s.handlers[i]);
    }
  }

  lemma EffectDated(steps: seq<Step>, k: Keys, t: Trip, h: Handler)
    requires HandlerDated(steps, h) && PendingDated(steps, k, t) && WindowDated(steps, k, t.ride)
    ensures PendingDated(steps, Effect(k, t, h), t) && WindowDated(steps, Effect(k, t, h), t.ride)
  {
    if h.stage.SetOwn? && h.event.RideAccepted? {
      assert Effect(k, t, h).pendingDriver[t.ride] == EncodeDriver(t.driver, h.event.at);
    } else if h.stage.WriteWindow? {
      assert Effect(k, t, h).participants[t.ride] == h.window;
    }
  }

  lemma ThenDated(steps: seq<Step>, k: Keys, t: Trip, h: Handler, now: Stamp)
    requires HandlerDated(steps, h) && PendingDated(steps, k, t) && '|' !in t.driver
    ensures HandlerDated(steps, Then(k, t, h, now))
  {
    if h.stage.GetOther? && h.event.RideRequested? && t.ride in k.pendingDriver {
      var at :| Delivered(steps, at) && k.pendingDriver[t.ride] == EncodeDriver(t.driver, at);
      DriverRoundTripIff(t.driver, at, now);
    }
  }

  lemma StepDated(steps: seq<Step>, s: State, t: Trip, step: Step)
    requires Dated(steps, s, t) && step in steps && Enabled(s, t, step) && '|' !in t.driver
    ensures Dated(steps, Next(s, t, step), t)
  {
    var s' := Next(s, t, step);
    if step.Advance? {
      var h := s.handlers[step.h];
      assert HandlerDated(steps, h);
      EffectDated(steps, s.keys, t, h);
      ThenDated(steps, s.keys, t, h, step.now);
    } else if step.Elsewhere? {
      assert PendingDated(steps, s.keys, t);
    }
    forall i | 0 <= i < |s'.handlers| ensures HandlerDated(steps, s'.handlers[i]) {
      if i < |s.handlers| {
        assert HandlerDated(steps, s.handlers[i]);
      }
    }
  }

  lemma {:induction false} RunDated(start: Keys, t: Trip, steps: seq<Step>)
    requires Closed(start, t.ride) && '|' !in t.driver
    ensures Dated(steps, Run(start, t, steps), t)
  {
    if steps != [] {
      var n := |steps| - 1;
      var s := Run(start, t, steps[..n]);
      RunDated(start, t, steps[..n]);
      MoreSteps(steps[..n], steps[n], s, t);
      assert steps[..n] + [steps[n]] == steps;
      if Enabled(s, t, steps[n]) {
        StepDated(steps, s, t, steps[n]);
      }
    }
  }

  /** The window's opening time is that of an acceptance that was delivered, never a handler's own clock. */
  lemma {:induction false} WindowOpensAtAcceptance(start: Keys, t: Trip, steps: seq<Step>)
    requires Closed(start, t.ride) && '|' !in t.driver
    requires t.ride in Run(start, t, steps).keys.participants
    ensures Delivered(steps, Run(start, t, steps).keys.participants[t.ride].openedAt)
  {
    RunDated(start, t, steps);
  }

  // ---- Undisturbed handlers ---------------------------------------------------------------------

  /** A handler's next command, with nothing in between. */
  function OneCommand(t: Trip, now: Stamp): ((Keys, Handler)) -> (Keys, Handler) {
    (s: (Keys, Handler)) => (Effect(s.0, t, s.1), Then(s.0, t, s.1, now))
  }

  /** A handler and the keys after `n` of its commands. */
  function Alone(k: Keys, t: Trip, h: Handler, now: Stamp, n: nat): (Keys, Handler) {
    Repeated(OneCommand(t, now), (k, h), n)
  }

  /** The six commands of the pipeline open the window. */
  lemma PipelineAlone(k: Keys, t: Trip, h: Handler, now: Stamp)
    requires h.stage.WriteWindow?
    ensures Alone(k, t, h, now, 6) == (Complete(k, t.ride, h.window), h.(stage := Opened))
  {
    var k1 := WriteParticipants(k, t.ride, h.window);
    assert Alone(k, t, h, now, 1) == (k1, h.(stage := ExpireWindow));
    assert Alone(k, t, h, now, 2) == (k1, h.(stage := PointDriver));
    var k3 := SetDriverRide(k1, h.window.driver, t.ride);
    assert Alone(k, t, h, now, 3) == (k3, h.(stage := PointClient));
    var k4 := SetClientRide(k3, h.window.client, t.ride);
    assert Alone(k, t, h, now, 4) == (k4, h.(stage := AddIndex));
    var k5 := AddActive(k4, t.ride);
    assert Alone(k, t, h, now, 5) == (k5, h.(stage := TrackingRace.DropPending));
  }

  function NewHandler(event: Event): Handler {
    Handler(event, SetOwn, Participants("", "", ""))
  }

  function OwnKeySet(k: Keys, t: Trip, event: Event): Keys {
    if event.RideRequested? then SetPendingClient(k, t) else SetPendingDriver(k, t, event.at)
  }

  /** The first two commands: set the own key, look for the other's. */
  lemma LookAlone(k: Keys, t: Trip, event: Event, now: Stamp)
    ensures var h := NewHandler(event); var k1 := OwnKeySet(k, t, event);
      Alone(k, t, h, now, 2) == (k1, Looked(k1, t, h.(stage := GetOther), now))
  {
    assert Alone(k, t, NewHandler(event), now, 1) == (OwnKeySet(k, t, event), NewHandler(event).(stage := GetOther));
  }

  /** What the handler makes of its look: nothing more, or the window that the whole handler opens. */
  lemma LookDecides(k: Keys, t: Trip, event: Event, now: Stamp)
    ensures var k1 := OwnKeySet(k, t, event); var looked := Looked(k1, t, NewHandler(event).(stage := GetOther), now);
      && (looked.stage.Waits? || looked.stage.WriteWindow?)
      && WholeHandler(k, t, event, now) == if looked.stage.Waits? then k1 else Complete(k1, t.ride, looked.window)
  {
  }

  function WholeHandler(k: Keys, t: Trip, event: Event, now: Stamp): Keys {
    match event
    case RideRequested => Requested(k, t, now)
    case RideAccepted(at) => AcceptedAt(k, t, at)
  }

  /** A handler that nothing interferes with is the one that the repository runs. */
  lemma {:induction false} AloneIsTheHandler(k: Keys, t: Trip, event: Event, now: Stamp)
    ensures Alone(k, t, NewHandler(event), now, 8).0 == WholeHandler(k, t, event, now)
  {
    var k1 := OwnKeySet(k, t, event);
    var looked := Looked(k1, t, NewHandler(event).(stage := GetOther), now);
    LookAlone(k, t, event, now);
    LookDecides(k, t, event, now);
    RepeatedSplits(OneCommand(t, now), (k, NewHandler(event)), 2, 6);
    if looked.stage.Waits? {
      FixedStays(OneCommand(t, now), (k1, looked), 6);
    } else {
      PipelineAlone(k1, t, looked, now);
    }
  }
}
