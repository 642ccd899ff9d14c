// The Redis keys of the matching service and the commands its repositories send.
module MatchingKeys {
  import opened Wrappers
  import opened Clock

  type RideId = nat
  type DriverId = nat
  type UserId = nat

  datatype RideStatus = Searching | Matched | Failed | Cancelled

  /** `ride:{id}`: the fields that the handlers write. */
  datatype RideHash = RideHash(status: RideStatus, driver: Option<DriverId>, rating: real)

  /** `pending_ride:{id}` */
  datatype Pending = Pending(attempt: int, deadline: Millis)

  datatype Keys = Keys(
    users: map<DriverId, UserId>,             // driver:{id} userId
    online: map<DriverId, real>,              // drivers:online, with the rating as score
    rides: map<RideId, RideHash>,             // ride:{id}
    cancelled: set<RideId>,                   // ride:{id}:cancelled
    accepted: map<RideId, DriverId>,          // ride:{id}:accepted_by
    offers: map<DriverId, RideId>,            // driver:{id}:current_offer
    offered: map<RideId, set<DriverId>>,      // ride:{id}:offered_drivers
    counts: map<DriverId, nat>,               // driver:{id}:notifications:minute
    pending: map<RideId, Pending>)            // pending_ride:{id}

  // ---- Rides ---------------------------------------------------------------------------------

  /** HSET writes fields: a hash that is missing comes into being, the other fields stay. */
  function Hash(k: Keys, r: RideId): RideHash {
    if r in k.rides then k.rides[r] else RideHash(Searching, None, 0.0)
  }

  function SetStatus(k: Keys, r: RideId, status: RideStatus): Keys {
    k.(rides := k.rides[r := Hash(k, r).(status := status)])
  }

  function SaveRide(k: Keys, r: RideId): Keys {
    SetStatus(k, r, Searching)
  }

  function MarkMatched(k: Keys, r: RideId, d: DriverId, rating: real): Keys {
    k.(rides := k.rides[r := RideHash(Matched, Some(d), rating)])
  }

  function SetCancelled(k: Keys, r: RideId): Keys {
    k.(cancelled := k.cancelled + {r})
  }

  // ---- Offers --------------------------------------------------------------------------------

  /** SET current_offer NX */
  function SetOffer(k: Keys, r: RideId, d: DriverId): Keys {
    if d in k.offers then k else k.(offers := k.offers[d := r])
  }

  function OfferedTo(k: Keys, r: RideId): set<DriverId> {
    if r in k.offered then k.offered[r] else {}
  }

  /** SADD offered_drivers */
  function RecordOffer(k: Keys, r: RideId, d: DriverId): Keys {
    k.(offered := k.offered[r := OfferedTo(k, r) + {d}])
  }

  function Count(k: Keys, d: DriverId): nat {
    if d in k.counts then k.counts[d] else 0
  }

  function IncrementCount(k: Keys, d: DriverId): Keys {
    k.(counts := k.counts[d := Count(k, d) + 1])
  }

  function ClearOffer(k: Keys, d: DriverId): Keys {
    k.(offers := k.offers - {d})
  }

  /** SET accepted_by NX */
  function SetAccepted(k: Keys, r: RideId, d: DriverId): Keys {
    if r in k.accepted then k else k.(accepted := k.accepted[r := d])
  }

  function SetPending(k: Keys, r: RideId, p: Pending): Keys {
    k.(pending := k.pending[r := p])
  }

  function DeletePending(k: Keys, r: RideId): Keys {
    k.(pending := k.pending - {r})
  }

  // ---- The pool ------------------------------------------------------------------------------

  function AddOnline(k: Keys, d: DriverId, rating: real): Keys {
    k.(online := k.online[d := rating])
  }

  function RemoveOnline(k: Keys, d: DriverId): Keys {
    k.(online := k.online - {d})
  }

  /** ZSCORE, with 0 for a driver who is not a member. */
  function RatingOf(k: Keys, d: DriverId): real {
    if d in k.online then k.online[d] else 0.0
  }
}
