// A ride's tracking window opens when both ride.requested and ride.accepted have been seen, whichever
// comes first: each handler writes its own pending key and then looks for the other's.
module Tracking {
  import opened Wrappers

  type RideId = string
  type ClientId = string
  type DriverId = string
  type Stamp = string

  datatype Participants = Participants(client: ClientId, driver: DriverId, openedAt: Stamp)

  datatype Keys = Keys(
    pendingClient: map<RideId, string>,        // loc:ride:{id}:pending_client
    pendingDriver: map<RideId, string>,        // loc:ride:{id}:pending_driver
    participants: map<RideId, Participants>,   // loc:ride:{id}:participants
    driverRide: map<DriverId, RideId>,         // loc:driver:{id}:activeRide
    clientRide: map<ClientId, RideId>,         // loc:client:{id}:activeRide
    active: set<RideId>)                       // loc:tracking:active

  // ---- The pending driver's text -------------------------------------------------------------

  /** The shape of a UTC time in RFC 3339 form. */
  predicate IsStamp(s: string) {
    |s| == 20 && s[4] == '-' && s[7] == '-' && s[10] == 'T' && s[13] == ':' && s[16] == ':' && s[19] == 'Z'
  }

  function EncodeDriver(driver: DriverId, at: Stamp): string {
    driver + "|" + at
  }

  /** `strings.Cut`: the parts before and after the first separator. */
  function Cut(s: string): (r: Option<(string, string)>)
    ensures r.None? <==> '|' !in s
    ensures r.Some? ==> s == r.value.0 + "|" + r.value.1 && '|' !in r.value.0
  {
    if s == "" then None
    else if s[0] == '|' then Some(("", s[1..]))
    else
      match Cut(s[1..])
      case None => None
      case Some((a, b)) => Some(([s[0]] + a, b))
  }

  /** A text without separator is a driver alone; a malformed time falls back to now. */
  function ParseDriver(raw: string, now: Stamp): (DriverId, Stamp) {
    match Cut(raw)
    case None => (raw, now)
    case Some((driver, stamp)) => (driver, if IsStamp(stamp) then stamp else now)
  }

  lemma {:induction false} CutAtFirst(a: string, b: string)
    requires '|' !in a
    ensures Cut(a + "|" + b) == Some((a, b))
  {
    var s := a + "|" + b;
    if a == "" {
      assert s[1..] == b;
    } else {
      CutAtFirst(a[1..], b);
      assert s[1..] == a[1..] + "|" + b;
      assert [a[0]] + a[1..] == a;
    }
  }

  /** The text round-trips exactly when the driver's id holds no separator. */
  lemma DriverRoundTripIff(driver: DriverId, at: Stamp, now: Stamp)
    requires IsStamp(at)
    ensures ParseDriver(EncodeDriver(driver, at), now) == (driver, at) <==> '|' !in driver
    ensures ParseDriver(EncodeDriver(driver, at), now).0 == driver <==> '|' !in driver
  {
    if '|' !in driver {
      CutAtFirst(driver, at);
    } else {
      var raw := EncodeDriver(driver, at);
      assert raw[|driver|] == '|';
      assert Cut(raw).Some?;
    }
  }

  /** Any stored text: a bare driver opens now, and so does one whose time is malformed. */
  lemma StoredDriverIsRead(driver: DriverId, stamp: string, now: Stamp)
    requires '|' !in driver
    ensures ParseDriver(driver, now) == (driver, now)
    ensures ParseDriver(driver + "|" + stamp, now) == (driver, if IsStamp(stamp) then stamp else now)
  {
    CutAtFirst(driver, stamp);
  }

  /** A time as the service writes it, and two texts that are none. */
  lemma StampExamples()
    ensures IsStamp("2024-05-06T07:08:09Z") && !IsStamp("") && !IsStamp("2024-05-06 07:08:09Z")
  {
  }

  // ---- Commands ------------------------------------------------------------------------------

  /** Which ride, and the participants its two events name. */
  datatype Trip = Trip(ride: RideId, client: ClientId, driver: DriverId)

  function SetPendingClient(k: Keys, t: Trip): Keys {
    k.(pendingClient := k.pendingClient[t.ride := t.client])
  }

  function SetPendingDriver(k: Keys, t: Trip, at: Stamp): Keys {
    k.(pendingDriver := k.pendingDriver[t.ride := EncodeDriver(t.driver, at)])
  }

  function WriteParticipants(k: Keys, ride: RideId, p: Participants): Keys {
    k.(participants := k.participants[ride := p])
  }

  function SetDriverRide(k: Keys, driver: DriverId, ride: RideId): Keys {
    k.(driverRide := k.driverRide[driver := ride])
  }

  function SetClientRide(k: Keys, client: ClientId, ride: RideId): Keys {
    k.(clientRide := k.clientRide[client := ride])
  }

  function AddActive(k: Keys, ride: RideId): Keys {
    k.(active := k.active + {ride})
  }

  function DeletePending(k: Keys, ride: RideId): Keys {
    k.(pendingClient := k.pendingClient - {ride}, pendingDriver := k.pendingDriver - {ride})
  }

  function DeleteParticipants(k: Keys, ride: RideId): Keys {
    DeletePending(k.(participants := k.participants - {ride}), ride)
  }

  // ---- Whole handlers ------------------------------------------------------------------------

  function Complete(k: Keys, ride: RideId, p: Participants): Keys {
    DeletePending(
      AddActive(SetClientRide(SetDriverRide(WriteParticipants(k, ride, p), p.driver, ride), p.client, ride), ride), ride)
  }

  function Requested(k: Keys, t: Trip, now: Stamp): Keys {
    var k1 := SetPendingClient(k, t);
    if t.ride !in k1.pendingDriver then k1
    else
      var (driver, at) := ParseDriver(k1.pendingDriver[t.ride], now);
      Complete(k1, t.ride, Participants(t.client, driver, at))
  }

  function AcceptedAt(k: Keys, t: Trip, at: Stamp): Keys {
    var k1 := SetPendingDriver(k, t, at);
    if t.ride !in k1.pendingClient then k1
    else Complete(k1, t.ride, Participants(k1.pendingClient[t.ride], t.driver, at))
  }

  function Close(k: Keys, ride: RideId): Keys {
    var k1 := DeleteParticipants(k, ride);
    if ride !in k.participants then k1.(active := k1.active - {ride})
    else
      var p := k.participants[ride];
      k1.(driverRide := if p.driver != "" then k1.driverRide - {p.driver} else k1.driverRide,
          clientRide := if p.client != "" then k1.clientRide - {p.client} else k1.clientRide,
          active := k1.active - {ride})
  }

  class Repository {
    var keys: Keys

    constructor ()
      ensures keys == Keys(map[], map[], map[], map[], map[], {})
    {
      keys := Keys(map[], map[], map[], map[], map[], {});
    }

    method CompleteWindow(ride: RideId, client: ClientId, driver: DriverId, openedAt: Stamp)
      modifies this
      ensures keys == Complete(old(keys), ride, Participants(client, driver, openedAt))
    {
      keys := keys.(participants := keys.participants[ride := Participants(client, driver, openedAt)]);
      keys := keys.(driverRide := keys.driverRide[driver := ride]);
      keys := keys.(clientRide := keys.clientRide[client := ride]);
      keys := keys.(active := keys.active + {ride});
      keys := DeletePending(keys, ride);
    }

    method RecordRideRequested(t: Trip, now: Stamp)
      modifies this
      ensures keys == Requested(old(keys), t, now)
    {
      keys := SetPendingClient(keys, t);
      if t.ride !in keys.pendingDriver {
        return;
      }
      var (driver, at) := ParseDriver(keys.pendingDriver[t.ride], now);
      CompleteWindow(t.ride, t.client, driver, at);
    }

    method RecordRideAccepted(t: Trip, at: Stamp)
      modifies this
      ensures keys == AcceptedAt(old(keys), t, at)
    {
      keys := SetPendingDriver(keys, t, at);
      if t.ride !in keys.pendingClient {
        return;
      }
      var client := keys.pendingClient[t.ride];
      CompleteWindow(t.ride, client, t.driver, at);
    }

    method CloseWindow(ride: RideId)
      modifies this
      ensures keys == Close(old(keys), ride)
    {
      var found := ride in keys.participants;
      var p := if found then keys.participants[ride] else Participants("", "", "");
      keys := DeleteParticipants(keys, ride);
      if p.driver != "" {
        keys := keys.(driverRide := keys.driverRide - {p.driver});
      }
      if p.client != "" {
        keys := keys.(clientRide := keys.clientRide - {p.client});
      }
      keys := keys.(active := keys.active - {ride});
    }
  }

  // ---- An open window ------------------------------------------------------------------------

  predicate ParticipantsRight(k: Keys, t: Trip) {
    t.ride in k.participants && k.participants[t.ride].client == t.client && k.participants[t.ride].driver == t.driver
  }

  predicate DriverPoints(k: Keys, t: Trip) {
    t.driver in k.driverRide && k.driverRide[t.driver] == t.ride
  }

  predicate ClientPoints(k: Keys, t: Trip) {
    t.client in k.clientRide && k.clientRide[t.client] == t.ride
  }

  /** The window is open with the right two people, both find their ride, and the fleet index lists it. */
  predicate Open(k: Keys, t: Trip) {
    ParticipantsRight(k, t) && DriverPoints(k, t) && ClientPoints(k, t) && t.ride in k.active
  }

  /** Nothing of the ride is left. */
  predicate Closed(k: Keys, ride: RideId) {
    ride !in k.participants && ride !in k.pendingClient && ride !in k.pendingDriver && ride !in k.active
  }

  /** Closing leaves nothing of the ride, undoes the reverse lookups, and closing again changes nothing. */
  lemma {:induction false} CloseUndoes(k: Keys, t: Trip)
    ensures Closed(Close(k, t.ride), t.ride) && Close(Close(k, t.ride), t.ride) == Close(k, t.ride)
    ensures Open(k, t) && t.client != "" && t.driver != "" ==>
              !DriverPoints(Close(k, t.ride), t) && !ClientPoints(Close(k, t.ride), t)
  {
    var k' := Close(k, t.ride);
    assert DeleteParticipants(k', t.ride) == k';
    assert k'.active - {t.ride} == k'.active;
  }

  /** With the request last, the window names the right driver exactly when his id holds no separator. */
  lemma RequestLastOpensIff(k: Keys, t: Trip, at: Stamp, now: Stamp)
    requires IsStamp(at) && Closed(k, t.ride)
    ensures Open(Requested(AcceptedAt(k, t, at), t, now), t) <==> '|' !in t.driver
  {
    DriverRoundTripIff(t.driver, at, now);
    assert AcceptedAt(k, t, at) == SetPendingDriver(k, t, at);
  }

  predicate PendingGone(k: Keys, ride: RideId) {
    ride !in k.pendingClient && ride !in k.pendingDriver
  }

  /** A single event leaves its key behind and opens nothing. */
  lemma FirstEventWaits(k: Keys, t: Trip, at: Stamp, now: Stamp)
    requires Closed(k, t.ride)
    ensures Requested(k, t, now) == k.(pendingClient := k.pendingClient[t.ride := t.client])
    ensures AcceptedAt(k, t, at) == k.(pendingDriver := k.pendingDriver[t.ride := t.driver + "|" + at])
  {
  }

  /** One after the other, in either order, the two events open the window. */
  lemma EitherOrderOpens(k: Keys, t: Trip, at: Stamp, now: Stamp)
    requires '|' !in t.driver && IsStamp(at) && Closed(k, t.ride)
    ensures Open(AcceptedAt(Requested(k, t, now), t, at), t)
    ensures Open(Requested(AcceptedAt(k, t, at), t, now), t)
    ensures Requested(AcceptedAt(k, t, at), t, now) == AcceptedAt(Requested(k, t, now), t, at)
    ensures Requested(AcceptedAt(k, t, at), t, now).participants[t.ride] == Participants(t.client, t.driver, at)
    ensures PendingGone(Requested(AcceptedAt(k, t, at), t, now), t.ride)
  {
    DriverRoundTripIff(t.driver, at, now);
    var p := Participants(t.client, t.driver, at);
    assert Requested(k, t, now) == SetPendingClient(k, t);
    assert AcceptedAt(k, t, at) == SetPendingDriver(k, t, at);
    assert SetPendingDriver(SetPendingClient(k, t), t, at) == SetPendingClient(SetPendingDriver(k, t, at), t);
  }

  /** Every other ride keeps its keys, and every other person their lookup. */
  predicate OthersKept(k: Keys, k': Keys, ride: RideId, driver: DriverId, client: ClientId) {
    && k'.pendingClient - {ride} == k.pendingClient - {ride} && k'.pendingDriver - {ride} == k.pendingDriver - {ride}
    && k'.participants - {ride} == k.participants - {ride} && k'.active - {ride} == k.active - {ride}
    && k'.driverRide - {driver} == k.driverRide - {driver} && k'.clientRide - {client} == k.clientRide - {client}
  }

  /** Opening touches the ride and its two people only. */
  lemma CompleteKeepsOthers(k: Keys, ride: RideId, p: Participants)
    ensures OthersKept(k, Complete(k, ride, p), ride, p.driver, p.client)
    ensures Open(Complete(k, ride, p), Trip(ride, p.client, p.driver)) && PendingGone(Complete(k, ride, p), ride)
    ensures Complete(k, ride, p).participants[ride] == p
  {
  }

  /** So does closing; with nobody in the window it touches no lookup, and an empty name is never looked up. */
  lemma CloseKeepsOthers(k: Keys, ride: RideId)
    ensures ride in k.participants ==>
              OthersKept(k, Close(k, ride), ride, k.participants[ride].driver, k.participants[ride].client)
    ensures ride !in k.participants ==>
              Close(k, ride).driverRide == k.driverRide && Close(k, ride).clientRide == k.clientRide
    ensures "" in k.driverRide ==> "" in Close(k, ride).driverRide && Close(k, ride).driverRide[""] == k.driverRide[""]
    ensures "" in k.clientRide ==> "" in Close(k, ride).clientRide && Close(k, ride).clientRide[""] == k.clientRide[""]
    ensures forall q :: q != ride ==>
              (q in k.participants <==> q in Close(k, ride).participants) && (q in k.active <==> q in Close(k, ride).active)
  {
  }
}
