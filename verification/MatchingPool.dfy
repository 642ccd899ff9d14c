// What the fall-back pool and the concurrent offers of one broadcast come to.
module MatchingPool {
  import opened MatchingKeys
  import opened Matching
  import Ranking

  // ---- The fall-back: the best-rated drivers online ----------------------------------------------

  /** The online set is a sorted set, read from its highest score down. */
  predicate ByRating(k: Keys, order: seq<DriverId>) {
    forall i, j :: 0 <= i < j < |order| && order[i] in k.online && order[j] in k.online ==>
      k.online[order[i]] >= k.online[order[j]]
  }

  predicate LeftOut(k: Keys, cs: seq<Ranking.Candidate>, d: DriverId) {
    d in k.online && forall i :: 0 <= i < |cs| ==> cs[i].driverId != d
  }

  /** Nobody left out is rated above anybody picked, and nobody is left out while there is room. */
  ghost predicate Best(k: Keys, cs: seq<Ranking.Candidate>, order: seq<DriverId>, limit: int) {
    forall j :: 0 <= j < |order| && LeftOut(k, cs, order[j]) ==>
      |cs| >= limit && forall i :: 0 <= i < |cs| ==> k.online[order[j]] <= cs[i].rating
  }

  /** The next driver of the set, online or not, rated no lower than those after him. */
  lemma OneBefore(k: Keys, order: seq<DriverId>, cs: seq<Ranking.Candidate>, limit: int)
    requires ByRating(k, order) && order != [] && order[0] in k.online && Best(k, cs, order[1..], limit - 1)
    ensures Best(k, [Ranking.Candidate(order[0], k.online[order[0]], 0)] + cs, order, limit)
  {
    var all := [Ranking.Candidate(order[0], k.online[order[0]], 0)] + cs;
    forall j | 0 <= j < |order| && LeftOut(k, all, order[j])
      ensures |all| >= limit && forall i :: 0 <= i < |all| ==> k.online[order[j]] <= all[i].rating
    {
      assert all[0].driverId == order[0];
      assert order[1..][j - 1] == order[j];
      assert forall i :: 0 <= i < |cs| ==> cs[i] == all[i + 1];
      assert LeftOut(k, cs, order[1..][j - 1]);
    }
  }

  lemma OneSkipped(k: Keys, order: seq<DriverId>, cs: seq<Ranking.Candidate>, limit: int)
    requires order != [] && order[0] !in k.online && Best(k, cs, order[1..], limit)
    ensures Best(k, cs, order, limit)
  {
    forall j | 0 <= j < |order| && LeftOut(k, cs, order[j])
      ensures |cs| >= limit && forall i :: 0 <= i < |cs| ==> k.online[order[j]] <= cs[i].rating
    {
      assert order[1..][j - 1] == order[j];
    }
  }

  lemma {:induction false} TopOnlineIsBest(k: Keys, order: seq<DriverId>, limit: int)
    requires ByRating(k, order)
    ensures Best(k, TopOnline(k, order, limit), order, limit)
  {
    if order != [] && limit > 0 {
      if order[0] in k.online {
        TopOnlineIsBest(k, order[1..], limit - 1);
        OneBefore(k, order, TopOnline(k, order[1..], limit - 1), limit);
      } else {
        TopOnlineIsBest(k, order[1..], limit);
        OneSkipped(k, order, TopOnline(k, order[1..], limit), limit);
      }
    }
  }

  /** Without the location service the pool goes by rating, best first. */
  lemma FallbackGoesByRating(k: Keys, attempt: int, round: Round, a: nat, b: nat)
    requires round.discovery.Unavailable? && a < b < |Pool(k, attempt, round)|
    ensures Pool(k, attempt, round)[a].rating >= Pool(k, attempt, round)[b].rating
  {
    var cs := TopOnline(k, round.order, attempt * POOL_WIDTH);
    RankedGoesByRating(cs, a, b);
  }

  /**
   * Its width is five drivers for each attempt: it holds no more, and nobody is left out of it while it holds
   * fewer, or who is rated above anyone in it.
   */
  lemma {:induction false} FallbackWidens(k: Keys, attempt: nat, round: Round)
    requires round.discovery.Unavailable? && ByRating(k, round.order)
    ensures |Pool(k, attempt, round)| <= 5 * attempt && Best(k, Pool(k, attempt, round), round.order, 5 * attempt)
  {
    var cs := TopOnline(k, round.order, attempt * POOL_WIDTH);
    TopOnlineIsBest(k, round.order, attempt * POOL_WIDTH);
    Ranking.RankedIsPermutation(cs, false);
    PermutedStaysBest(k, cs, Ranking.Ranked(cs, false), round.order, attempt * POOL_WIDTH);
  }

  lemma PermutedStaysBest(
      k: Keys, cs: seq<Ranking.Candidate>, ranked: seq<Ranking.Candidate>, order: seq<DriverId>, limit: int)
    requires Best(k, cs, order, limit) && multiset(ranked) == multiset(cs) && |ranked| == |cs|
    ensures Best(k, ranked, order, limit)
  {
    forall c: Ranking.Candidate ensures c in ranked <==> c in cs {
      assert c in ranked <==> c in multiset(ranked);
      assert c in cs <==> c in multiset(cs);
    }
    forall j | 0 <= j < |order| && LeftOut(k, ranked, order[j])
      ensures |ranked| >= limit && forall i :: 0 <= i < |ranked| ==> k.online[order[j]] <= ranked[i].rating
    {
      forall i | 0 <= i < |cs| ensures cs[i].driverId != order[j] {
        assert cs[i] in ranked;
      }
      assert LeftOut(k, cs, order[j]);
      forall i | 0 <= i < |ranked| ensures k.online[order[j]] <= ranked[i].rating {
        assert ranked[i] in cs;
      }
    }
  }

  lemma RankedGoesByRating(cs: seq<Ranking.Candidate>, a: nat, b: nat)
    requires a < b < |cs|
    ensures Ranking.Ranked(cs, false)[a].rating >= Ranking.Ranked(cs, false)[b].rating
  {
    Ranking.BestFirst(cs, false, a, b);
  }

  // ---- Offers sent side by side ------------------------------------------------------------------

  /** How many of its three commands the offer to each driver has sent. */
  type Sent = map<DriverId, nat>

  /** The command that follows the first `n` of an offer. */
  function Command(k: Keys, r: RideId, d: DriverId, n: nat): Keys {
    if n == 0 then SetOffer(k, r, d) else if n == 1 then RecordOffer(k, r, d) else IncrementCount(k, d)
  }

  /** The offer is over: all sent, broken off, or the slot was taken. */
  predicate Over(k: Keys, sent: Sent, cut: Cut, d: DriverId)
    requires d in sent
  {
    sent[d] >= 3 || sent[d] >= Reach(cut, d) || (sent[d] == 0 && d in k.offers)
  }

  datatype Fan = Fan(keys: Keys, sent: Sent)

  function Sends(f: Fan, r: RideId, cut: Cut, d: DriverId): Fan {
    if d !in f.sent || Over(f.keys, f.sent, cut, d) then f
    else Fan(Command(f.keys, r, d, f.sent[d]), f.sent[d := f.sent[d] + 1])
  }

  /** The offers' commands in the order in which the schedule lets their senders go on. */
  function Interleaved(f: Fan, r: RideId, cut: Cut, schedule: seq<DriverId>): Fan {
    if schedule == [] then f
    else Sends(Interleaved(f, r, cut, schedule[..|schedule| - 1]), r, cut, schedule[|schedule| - 1])
  }

  function Taken(offers: map<DriverId, RideId>, r: RideId, sent: Sent): map<DriverId, RideId> {
    offers + (map d | d in sent && sent[d] >= 1 :: r)
  }

  function Noted(sent: Sent): set<DriverId> {
    set d | d in sent && sent[d] >= 2
  }

  function NotedBy(offered: map<RideId, set<DriverId>>, r: RideId, noted: set<DriverId>): map<RideId, set<DriverId>> {
    if noted == {} then offered else offered[r := (if r in offered then offered[r] else {}) + noted]
  }

  function Counted(counts: map<DriverId, nat>, sent: Sent): map<DriverId, nat> {
    counts + (map d | d in sent && sent[d] >= 3 :: (if d in counts then counts[d] else 0) + 1)
  }

  /** The keys when each offer has sent so many commands. */
  function KeysAt(k: Keys, r: RideId, sent: Sent): Keys {
    k.(offers := Taken(k.offers, r, sent),
       offered := NotedBy(k.offered, r, Noted(sent)),
       counts := Counted(k.counts, sent))
  }

  /** Whether a driver's offer counts as started, noted or counted does not change between `m` and `n`. */
  predicate Still(sent: Sent, d: DriverId, n: nat, mark: nat) {
    if d in sent then sent[d] >= mark <==> n >= mark else n < mark
  }

  lemma TakenStill(offers: map<DriverId, RideId>, r: RideId, sent: Sent, d: DriverId, n: nat)
    requires Still(sent, d, n, 1)
    ensures Taken(offers, r, sent[d := n]) == Taken(offers, r, sent)
  {
  }

  lemma TakenNew(offers: map<DriverId, RideId>, r: RideId, sent: Sent, d: DriverId)
    ensures Taken(offers, r, sent[d := 1]) == Taken(offers, r, sent)[d := r]
  {
  }

  lemma NotedStill(sent: Sent, d: DriverId, n: nat)
    requires Still(sent, d, n, 2)
    ensures Noted(sent[d := n]) == Noted(sent)
  {
  }

  lemma NotedNew(offered: map<RideId, set<DriverId>>, r: RideId, sent: Sent, d: DriverId)
    ensures var before := NotedBy(offered, r, Noted(sent));
      NotedBy(offered, r, Noted(sent[d := 2])) == before[r := (if r in before then before[r] else {}) + {d}]
  {
    assert Noted(sent[d := 2]) == Noted(sent) + {d};
    var was := if r in offered then offered[r] else {};
    assert was + Noted(sent) + {d} == was + (Noted(sent) + {d});
    assert Noted(sent) == {} ==> was + {d} == was + (Noted(sent) + {d});
  }

  lemma CountedStill(counts: map<DriverId, nat>, sent: Sent, d: DriverId, n: nat)
    requires Still(sent, d, n, 3)
    ensures Counted(counts, sent[d := n]) == Counted(counts, sent)
  {
  }

  lemma CountedNew(counts: map<DriverId, nat>, sent: Sent, d: DriverId)
    requires d in sent ==> sent[d] < 3
    ensures var before := Counted(counts, sent);
      Counted(counts, sent[d := 3]) == before[d := (if d in before then before[d] else 0) + 1]
  {
  }

  lemma SlotAt(k: Keys, r: RideId, sent: Sent, d: DriverId)
    requires d in sent && sent[d] == 0 && d !in k.offers
    ensures SetOffer(KeysAt(k, r, sent), r, d) == KeysAt(k, r, sent[d := 1])
  {
    assert d !in KeysAt(k, r, sent).offers;
    TakenNew(k.offers, r, sent, d);
    NotedStill(sent, d, 1);
    CountedStill(k.counts, sent, d, 1);
  }

  lemma NoteAt(k: Keys, r: RideId, sent: Sent, d: DriverId)
    requires d in sent && sent[d] == 1
    ensures RecordOffer(KeysAt(k, r, sent), r, d) == KeysAt(k, r, sent[d := 2])
  {
    TakenStill(k.offers, r, sent, d, 2);
    NotedNew(k.offered, r, sent, d);
    CountedStill(k.counts, sent, d, 2);
  }

  lemma CountAt(k: Keys, r: RideId, sent: Sent, d: DriverId)
    requires d in sent && sent[d] == 2
    ensures IncrementCount(KeysAt(k, r, sent), d) == KeysAt(k, r, sent[d := 3])
  {
    TakenStill(k.offers, r, sent, d, 3);
    NotedStill(sent, d, 3);
    CountedNew(k.counts, sent, d);
  }

  lemma SlotFreeIff(k: Keys, r: RideId, sent: Sent, d: DriverId)
    requires d in sent ==> sent[d] == 0
    ensures d in KeysAt(k, r, sent).offers <==> d in k.offers
  {
  }

  lemma NewcomerAt(k: Keys, r: RideId, sent: Sent, d: DriverId)
    requires d !in sent
    ensures KeysAt(k, r, sent[d := 0]) == KeysAt(k, r, sent)
  {
    TakenStill(k.offers, r, sent, d, 0);
    NotedStill(sent, d, 0);
    CountedStill(k.counts, sent, d, 0);
  }

  // What the commands do to keys that depend on the commands sent so far, and nothing else about them.

  predicate FreshLaw(at: Sent -> Keys, k: Keys, sent: Sent, d: DriverId) {
    && (d !in sent ==> at(sent[d := 0]) == at(sent))
    && ((d in sent ==> sent[d] == 0) ==> (d in at(sent).offers <==> d in k.offers))
  }

  predicate SlotLaw(at: Sent -> Keys, k: Keys, r: RideId, sent: Sent, d: DriverId) {
    d in sent && sent[d] == 0 && d !in k.offers ==> SetOffer(at(sent), r, d) == at(sent[d := 1])
  }

  predicate NoteLaw(at: Sent -> Keys, r: RideId, sent: Sent, d: DriverId) {
    d in sent && sent[d] == 1 ==> RecordOffer(at(sent), r, d) == at(sent[d := 2])
  }

  predicate CountLaw(at: Sent -> Keys, sent: Sent, d: DriverId) {
    d in sent && sent[d] == 2 ==> IncrementCount(at(sent), d) == at(sent[d := 3])
  }

  ghost predicate Lawful(at: Sent -> Keys, k: Keys, r: RideId) {
    && at(map[]) == k
    && (forall sent, d :: FreshLaw(at, k, sent, d))
    && (forall sent, d :: SlotLaw(at, k, r, sent, d))
    && (forall sent, d :: NoteLaw(at, r, sent, d))
    && (forall sent, d :: CountLaw(at, sent, d))
  }

  lemma KeysAtIsLawful(k: Keys, r: RideId) returns (at: Sent -> Keys)
    ensures Lawful(at, k, r)
  {
    at := (sent: Sent) => KeysAt(k, r, sent);
    assert at(map[]) == k;
    forall sent, d ensures FreshLaw(at, k, sent, d) {
      if d in sent ==> sent[d] == 0 {
        SlotFreeIff(k, r, sent, d);
      }
      if d !in sent {
        NewcomerAt(k, r, sent, d);
      }
    }
    forall sent, d ensures SlotLaw(at, k, r, sent, d) {
      if d in sent && sent[d] == 0 && d !in k.offers {
        SlotAt(k, r, sent, d);
      }
    }
    forall sent, d ensures NoteLaw(at, r, sent, d) {
      if d in sent && sent[d] == 1 {
        NoteAt(k, r, sent, d);
      }
    }
    forall sent, d ensures CountLaw(at, sent, d) {
      if d in sent && sent[d] == 2 {
        CountAt(k, r, sent, d);
      }
    }
  }

  // ---- Side by side ------------------------------------------------------------------------------

  /** How far an offer gets in the end. */
  function Limit(k: Keys, cut: Cut, d: DriverId): nat {
    if d in k.offers then 0 else if Reach(cut, d) > 3 then 3 else Reach(cut, d)
  }

  predicate Within(k: Keys, cut: Cut, sent: Sent) {
    forall d :: d in sent ==> sent[d] <= Limit(k, cut, d)
  }

  /** No offer has sent more than it will, and the keys are as the commands sent so far leave them. */
  ghost predicate InStep(at: Sent -> Keys, k: Keys, cut: Cut, f: Fan) {
    f.keys == at(f.sent) && Within(k, cut, f.sent)
  }

  lemma OverIff(at: Sent -> Keys, k: Keys, r: RideId, cut: Cut, f: Fan, d: DriverId)
    requires Lawful(at, k, r) && InStep(at, k, cut, f) && d in f.sent
    ensures Over(f.keys, f.sent, cut, d) <==> f.sent[d] == Limit(k, cut, d)
  {
    if f.sent[d] == 0 {
      assert FreshLaw(at, k, f.sent, d);
    }
  }

  lemma SendsInStep(at: Sent -> Keys, k: Keys, r: RideId, cut: Cut, f: Fan, d: DriverId)
    requires Lawful(at, k, r) && InStep(at, k, cut, f)
    ensures InStep(at, k, cut, Sends(f, r, cut, d))
  {
    if d in f.sent && !Over(f.keys, f.sent, cut, d) {
      OverIff(at, k, r, cut, f, d);
      assert SlotLaw(at, k, r, f.sent, d) && NoteLaw(at, r, f.sent, d) && CountLaw(at, f.sent, d);
    }
  }

  function Unsent(targets: seq<Ranking.Candidate>): (sent: Sent)
    ensures sent.Keys == Drivers(targets)
  {
    map d | d in Drivers(targets) :: 0
  }

  lemma {:induction false} UnsentAt(at: Sent -> Keys, k: Keys, r: RideId, targets: seq<Ranking.Candidate>)
    requires Lawful(at, k, r)
    ensures at(Unsent(targets)) == k
  {
    if targets == [] {
      assert Unsent(targets) == map[];
    } else {
      var n := |targets| - 1;
      var d := targets[n].driverId;
      UnsentAt(at, k, r, targets[..n]);
      assert targets == targets[..n] + [targets[n]];
      assert Drivers(targets) == Drivers(targets[..n]) + {d};
      assert FreshLaw(at, k, Unsent(targets[..n]), d);
      assert Unsent(targets) == Unsent(targets[..n])[d := 0];
      assert d in Unsent(targets[..n]) ==> Unsent(targets) == Unsent(targets[..n]);
    }
  }

  lemma {:induction false} InterleavedInStep(
      at: Sent -> Keys, k: Keys, r: RideId, cut: Cut, targets: seq<Ranking.Candidate>, schedule: seq<DriverId>)
    requires Lawful(at, k, r)
    ensures var f := Interleaved(Fan(k, Unsent(targets)), r, cut, schedule);
      InStep(at, k, cut, f) && f.sent.Keys == Drivers(targets)
  {
    if schedule == [] {
      UnsentAt(at, k, r, targets);
    } else {
      var n := |schedule| - 1;
      InterleavedInStep(at, k, r, cut, targets, schedule[..n]);
      SendsInStep(at, k, r, cut, Interleaved(Fan(k, Unsent(targets)), r, cut, schedule[..n]), schedule[n]);
    }
  }

  predicate AllOver(f: Fan, cut: Cut) {
    forall d :: d in f.sent ==> Over(f.keys, f.sent, cut, d)
  }

  function Limits(k: Keys, cut: Cut, ds: set<DriverId>): (sent: Sent)
    ensures sent.Keys == ds
  {
    map d | d in ds :: Limit(k, cut, d)
  }

  lemma OverAtLimit(at: Sent -> Keys, k: Keys, r: RideId, cut: Cut, f: Fan)
    requires Lawful(at, k, r) && InStep(at, k, cut, f) && AllOver(f, cut)
    ensures f.sent == Limits(k, cut, f.sent.Keys)
  {
    forall d | d in f.sent ensures f.sent[d] == Limit(k, cut, d) {
      OverIff(at, k, r, cut, f, d);
    }
  }

  // ---- One after the other -----------------------------------------------------------------------

  predicate Apart(targets: seq<Ranking.Candidate>) {
    forall i, j :: 0 <= i < j < |targets| ==> targets[i].driverId != targets[j].driverId
  }

  lemma OfferOneReaches(at: Sent -> Keys, k: Keys, r: RideId, sent: Sent, d: DriverId, reach: nat)
    requires Lawful(at, k, r)
    requires d in sent && sent[d] == 0 && d !in k.offers && 0 < reach
    ensures OfferOne(at(sent), r, d, reach) == at(sent[d := if reach > 3 then 3 else reach])
  {
    var one: Sent, two: Sent := sent[d := 1], sent[d := 2];
    assert FreshLaw(at, k, sent, d);
    assert SlotLaw(at, k, r, sent, d) && NoteLaw(at, r, one, d) && CountLaw(at, two, d);
    assert one[d := 2] == two && two[d := 3] == sent[d := 3];
  }

  /** A driver whose offer goes its whole way at once. */
  lemma OfferOneAt(at: Sent -> Keys, k: Keys, r: RideId, cut: Cut, ds: set<DriverId>, d: DriverId)
    requires Lawful(at, k, r) && d !in ds
    ensures OfferOne(at(Limits(k, cut, ds)), r, d, Reach(cut, d)) == at(Limits(k, cut, ds + {d}))
  {
    var before, sent: Sent := Limits(k, cut, ds), Limits(k, cut, ds)[d := 0];
    assert FreshLaw(at, k, before, d);
    assert Limits(k, cut, ds + {d}) == sent[d := Limit(k, cut, d)];
    if Limit(k, cut, d) > 0 {
      OfferOneReaches(at, k, r, sent, d, Reach(cut, d));
    } else {
      assert sent[d := 0] == sent;
    }
  }

  lemma {:induction false} OfferAllAt(at: Sent -> Keys, k: Keys, r: RideId, targets: seq<Ranking.Candidate>, cut: Cut)
    requires Lawful(at, k, r) && Apart(targets)
    ensures OfferAll(k, r, targets, cut) == at(Limits(k, cut, Drivers(targets)))
  {
    if targets == [] {
      assert Limits(k, cut, Drivers(targets)) == map[];
    } else {
      var n := |targets| - 1;
      var d := targets[n].driverId;
      assert targets == targets[..n] + [targets[n]];
      assert Drivers(targets) == Drivers(targets[..n]) + {d};
      OfferAllAt(at, k, r, targets[..n], cut);
      OfferOneAt(at, k, r, cut, Drivers(targets[..n]), d);
    }
  }

  /**
   * The offers of a broadcast run side by side, each stopping where it breaks off: whatever the order in
   * which their commands reach Redis, they end in the keys that offering to one driver after the other gives.
   */
  lemma {:induction false} SideBySideIsOneByOne(
      k: Keys, r: RideId, targets: seq<Ranking.Candidate>, cut: Cut, schedule: seq<DriverId>)
    requires Apart(targets) && AllOver(Interleaved(Fan(k, Unsent(targets)), r, cut, schedule), cut)
    ensures Interleaved(Fan(k, Unsent(targets)), r, cut, schedule).keys == OfferAll(k, r, targets, cut)
  {
    var at := KeysAtIsLawful(k, r);
    InterleavedInStep(at, k, r, cut, targets, schedule);
    OverAtLimit(at, k, r, cut, Interleaved(Fan(k, Unsent(targets)), r, cut, schedule));
    OfferAllAt(at, k, r, targets, cut);
  }
}
