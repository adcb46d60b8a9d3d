/** Rider dispatch (utils/orderAssignment.js): offer an order to the nearest eligible
    rider, or record that no rider is available; and the sweep that re-runs that
    assignment for every order still waiting for a rider.

    Two identity spaces are kept apart: a rider is excluded by its Mongo `_id`
    (the ObjectId the exclusion strings parse to), while an order is offered to
    the rider's `firebaseUid` when it has one and to its `_id` string otherwise. */
module Dispatch {
  import opened Common
  import Sorting

  /** A coordinate pair as stored; each coordinate may be missing. */
  datatype Location = Location(latitude: Option<real>, longitude: Option<real>)

  /** `loc && loc.latitude && loc.longitude`: present and both coordinates non-zero.
      A latitude or longitude of exactly 0 counts as missing. */
  predicate HasCoordinates(loc: Option<Location>) {
    loc.Some? && Truthy(loc.value.latitude) && Truthy(loc.value.longitude)
  }

  /** The view of a `users` document that dispatch reads. `id` is `_id.toString()`. */
  datatype Rider = Rider(
    id: string,
    firebaseUid: Option<string>,
    role: string,
    isOnline: bool,
    isAvailable: bool,
    liveLocation: Option<Location>)

  type OrderId = string

  /** The dispatch fields of an `orders` document. */
  datatype Order = Order(
    status: string,
    riderId: Option<string>,
    visibleToRiderId: Option<string>,
    assignmentStatus: Option<string>,
    vendorLocation: Option<Location>,
    rejectedByRiders: Option<seq<string>>)

  /** Great-circle distance in meters between two present coordinate pairs
      (lat1, lon1, lat2, lon2); the haversine formula itself is not modelled. */
  type Haversine = (real, real, real, real) -> real

  datatype Distance = Finite(meters: real) | Infinite

  /** `calculateDistance`: Infinity when either coordinate pair is missing. */
  function CalculateDistance(a: Option<Location>, b: Option<Location>, haversine: Haversine): Distance {
    if HasCoordinates(a) && HasCoordinates(b) then
      Finite(haversine(a.value.latitude.value, a.value.longitude.value,
                       b.value.latitude.value, b.value.longitude.value))
    else Infinite
  }

  /** The comparator `a.distance - b.distance` does not put `b` first: finite distances
      compare as numbers, everything is before Infinity, and Infinity - Infinity is NaN,
      which the sort treats as a tie. */
  predicate DistLe(x: Distance, y: Distance) {
    match (x, y)
    case (Finite(a), Finite(b)) => a <= b
    case (_, Infinite) => true
    case (Infinite, Finite(_)) => false
  }

  lemma DistLeTotal(x: Distance, y: Distance)
    ensures DistLe(x, y) || DistLe(y, x)
  {
  }

  lemma DistLeTransitive(x: Distance, y: Distance, z: Distance)
    requires DistLe(x, y) && DistLe(y, z)
    ensures DistLe(x, z)
  {
  }

  function RiderDistance(vendorLocation: Option<Location>, haversine: Haversine, r: Rider): Distance {
    CalculateDistance(vendorLocation, r.liveLocation, haversine)
  }

  /** The ranking the sort applies to riders. */
  function Closer(vendorLocation: Option<Location>, haversine: Haversine): (Rider, Rider) -> bool {
    (a: Rider, b: Rider) =>
      DistLe(RiderDistance(vendorLocation, haversine, a), RiderDistance(vendorLocation, haversine, b))
  }

  lemma CloserIsTotalPreorder(vendorLocation: Option<Location>, haversine: Haversine)
    ensures Sorting.TotalPreorder(Closer(vendorLocation, haversine))
  {
    var le := Closer(vendorLocation, haversine);
    forall a, b ensures le(a, b) || le(b, a) {
      DistLeTotal(RiderDistance(vendorLocation, haversine, a), RiderDistance(vendorLocation, haversine, b));
    }
    forall a, b, c | le(a, b) && le(b, c) ensures le(a, c) {
      DistLeTransitive(RiderDistance(vendorLocation, haversine, a), RiderDistance(vendorLocation, haversine, b),
                       RiderDistance(vendorLocation, haversine, c));
    }
  }

  /** `excludedRiderIds.map(id => new ObjectId(id))`, as canonical id strings;
      None when some id is not a valid ObjectId string, where the constructor throws. */
  function ParseExclusions(ids: seq<string>): (r: Option<seq<string>>)
    ensures r.Some? <==> forall i :: 0 <= i < |ids| ==> ObjectIdOf(ids[i]).Some?
    ensures r.Some? ==> |r.value| == |ids|
    ensures r.Some? ==> forall i :: 0 <= i < |ids| ==> r.value[i] == ObjectIdOf(ids[i]).value
  {
    if ids == [] then Some([])
    else
      match (ObjectIdOf(ids[0]), ParseExclusions(ids[1..]))
      case (Some(h), Some(t)) =>
        assert forall i :: 1 <= i < |ids| ==> ids[i] == ids[1..][i - 1];
        Some([h] + t)
      case _ =>
        assert forall i :: 1 <= i < |ids| ==> ids[i] == ids[1..][i - 1];
        None
  }

  /** The `users` query plus the location filter: role 'rider', online, available,
      `_id` not excluded, and a location with both coordinates. */
  predicate IsCandidate(r: Rider, excluded: seq<string>) {
    && r.role == "rider"
    && r.isOnline
    && r.isAvailable
    && r.id !in excluded
    && HasCoordinates(r.liveLocation)
  }

  /** `validRiders`, in the order the store enumerates the riders. */
  function Candidates(users: seq<Rider>, excluded: seq<string>): (r: seq<Rider>)
    ensures forall x :: x in r <==> x in users && IsCandidate(x, excluded)
  {
    if users == [] then []
    else
      assert users == [users[0]] + users[1..];
      (if IsCandidate(users[0], excluded) then [users[0]] else []) + Candidates(users[1..], excluded)
  }

  /** `ridersWithDistance.sort(...)[0]`. */
  function Nearest(candidates: seq<Rider>, vendorLocation: Option<Location>, haversine: Haversine): Rider
    requires candidates != []
  {
    Sorting.SortBy(candidates, Closer(vendorLocation, haversine))[0]
  }

  /** The rider picked is, among all users, a candidate that is no farther than any
      candidate, and every candidate listed before it is strictly farther: the
      earliest nearest candidate. */
  lemma {:induction false} NearestIsEarliestClosest(users: seq<Rider>, excluded: seq<string>,
                                                    vendorLocation: Option<Location>, haversine: Haversine)
    returns (k: nat)
    requires Candidates(users, excluded) != []
    ensures k < |users| && users[k] == Nearest(Candidates(users, excluded), vendorLocation, haversine)
    ensures IsCandidate(users[k], excluded)
    ensures forall j :: 0 <= j < |users| && IsCandidate(users[j], excluded) ==>
      DistLe(RiderDistance(vendorLocation, haversine, users[k]), RiderDistance(vendorLocation, haversine, users[j]))
    ensures forall j :: 0 <= j < k && IsCandidate(users[j], excluded) ==>
      !DistLe(RiderDistance(vendorLocation, haversine, users[j]), RiderDistance(vendorLocation, haversine, users[k]))
  {
    var rest := users[1..];
    assert users == [users[0]] + rest;
    var tail := Candidates(rest, excluded);
    if !IsCandidate(users[0], excluded) {
      assert Candidates(users, excluded) == tail;
      var k' := NearestIsEarliestClosest(rest, excluded, vendorLocation, haversine);
      k := k' + 1;
      ShiftClosest(users, excluded, vendorLocation, haversine, k');
    } else if tail == [] {
      k := 0;
      NearestOnlyHead(users, excluded, vendorLocation, haversine);
    } else {
      var k' := NearestIsEarliestClosest(rest, excluded, vendorLocation, haversine);
      k := NearestHeadOrRest(users, excluded, vendorLocation, haversine, k');
    }
  }

  /** The case where the first user is the only candidate. */
  lemma NearestOnlyHead(users: seq<Rider>, excluded: seq<string>, vendorLocation: Option<Location>, haversine: Haversine)
    requires users != [] && IsCandidate(users[0], excluded) && Candidates(users[1..], excluded) == []
    ensures Candidates(users, excluded) != [] && users[0] == Nearest(Candidates(users, excluded), vendorLocation, haversine)
    ensures forall j :: 0 < j < |users| ==> !IsCandidate(users[j], excluded)
  {
    var rest := users[1..];
    assert users == [users[0]] + rest;
    assert Candidates(users, excluded) == [users[0]];
    Sorting.SortBySingleton(users[0], Closer(vendorLocation, haversine));
    forall j | 0 < j < |users| ensures !IsCandidate(users[j], excluded) {
      assert users[j] == rest[j - 1];
      assert users[j] in rest;
    }
  }

  /** The case where the first user is a candidate and so is someone after it: the
      head wins exactly when it is no farther than the best of the rest. */
  lemma NearestHeadOrRest(users: seq<Rider>, excluded: seq<string>, vendorLocation: Option<Location>,
                          haversine: Haversine, k': nat)
    returns (k: nat)
    requires users != [] && IsCandidate(users[0], excluded) && Candidates(users[1..], excluded) != []
    requires k' < |users| - 1 && users[1..][k'] == Nearest(Candidates(users[1..], excluded), vendorLocation, haversine)
    requires IsCandidate(users[1..][k'], excluded)
    requires var rest := users[1..];
      forall j :: 0 <= j < |rest| && IsCandidate(rest[j], excluded) ==>
        DistLe(RiderDistance(vendorLocation, haversine, rest[k']), RiderDistance(vendorLocation, haversine, rest[j]))
    requires var rest := users[1..];
      forall j :: 0 <= j < k' && IsCandidate(rest[j], excluded) ==>
        !DistLe(RiderDistance(vendorLocation, haversine, rest[j]), RiderDistance(vendorLocation, haversine, rest[k']))
    ensures k < |users| && Candidates(users, excluded) != []
    ensures users[k] == Nearest(Candidates(users, excluded), vendorLocation, haversine)
    ensures IsCandidate(users[k], excluded)
    ensures forall j :: 0 <= j < |users| && IsCandidate(users[j], excluded) ==>
      DistLe(RiderDistance(vendorLocation, haversine, users[k]), RiderDistance(vendorLocation, haversine, users[j]))
    ensures forall j :: 0 <= j < k && IsCandidate(users[j], excluded) ==>
      !DistLe(RiderDistance(vendorLocation, haversine, users[j]), RiderDistance(vendorLocation, haversine, users[k]))
  {
    var le := Closer(vendorLocation, haversine);
    var u, rest := users[0], users[1..];
    var tail := Candidates(rest, excluded);
    assert users == [u] + rest;
    assert Candidates(users, excluded) == [u] + tail;
    Sorting.SortByHead(u, tail, le);
    var du, dn := RiderDistance(vendorLocation, haversine, u), RiderDistance(vendorLocation, haversine, rest[k']);
    assert le(u, rest[k']) == DistLe(du, dn);
    if DistLe(du, dn) {
      k := 0;
      forall j | 0 < j < |users| && IsCandidate(users[j], excluded)
        ensures DistLe(du, RiderDistance(vendorLocation, haversine, users[j]))
      {
        assert users[j] == rest[j - 1];
        DistLeTransitive(du, dn, RiderDistance(vendorLocation, haversine, users[j]));
      }
    } else {
      k := k' + 1;
      DistLeTotal(du, dn);
      ShiftClosest(users, excluded, vendorLocation, haversine, k');
    }
  }

  /** Lifts the closest-candidate facts about `users[1..]` at index `k'` to `users` at
      index `k' + 1`, given that the head is no nearer. */
  lemma ShiftClosest(users: seq<Rider>, excluded: seq<string>, vendorLocation: Option<Location>,
                     haversine: Haversine, k': nat)
    requires 0 < |users| && k' < |users| - 1
    requires var rest := users[1..];
      forall j :: 0 <= j < |rest| && IsCandidate(rest[j], excluded) ==>
        DistLe(RiderDistance(vendorLocation, haversine, rest[k']), RiderDistance(vendorLocation, haversine, rest[j]))
    requires var rest := users[1..];
      forall j :: 0 <= j < k' && IsCandidate(rest[j], excluded) ==>
        !DistLe(RiderDistance(vendorLocation, haversine, rest[j]), RiderDistance(vendorLocation, haversine, rest[k']))
    requires IsCandidate(users[0], excluded) ==>
      DistLe(RiderDistance(vendorLocation, haversine, users[k' + 1]), RiderDistance(vendorLocation, haversine, users[0])) &&
      !DistLe(RiderDistance(vendorLocation, haversine, users[0]), RiderDistance(vendorLocation, haversine, users[k' + 1]))
    ensures forall j :: 0 <= j < |users| && IsCandidate(users[j], excluded) ==>
      DistLe(RiderDistance(vendorLocation, haversine, users[k' + 1]), RiderDistance(vendorLocation, haversine, users[j]))
    ensures forall j :: 0 <= j < k' + 1 && IsCandidate(users[j], excluded) ==>
      !DistLe(RiderDistance(vendorLocation, haversine, users[j]), RiderDistance(vendorLocation, haversine, users[k' + 1]))
  {
    var rest := users[1..];
    assert users[k' + 1] == rest[k'];
    forall j | 1 <= j < |users| ensures users[j] == rest[j - 1] {}
  }

  /** What `assignOrderToNearestRider` decides: it fails (the ObjectId constructor
      throws and the error is swallowed), finds no rider, or offers the order. */
  datatype AssignOutcome = Failed | NoRiders | Offered(rider: Rider)

  function Assignment(users: seq<Rider>, vendorLocation: Option<Location>, excludedIds: seq<string>,
                      haversine: Haversine): AssignOutcome
  {
    match ParseExclusions(excludedIds)
    case None => Failed
    case Some(excluded) =>
      var candidates := Candidates(users, excluded);
      if candidates == [] then NoRiders else Offered(Nearest(candidates, vendorLocation, haversine))
  }

  /** An exclusion id names a rider when it parses to that rider's ObjectId. */
  predicate Excludes(excludedIds: seq<string>, r: Rider) {
    exists i :: 0 <= i < |excludedIds| && ObjectIdOf(excludedIds[i]) == Some(r.id)
  }

  /** The three outcomes, each characterised on its own terms. */
  lemma AssignmentOutcomes(users: seq<Rider>, vendorLocation: Option<Location>, excludedIds: seq<string>,
                           haversine: Haversine)
    ensures Assignment(users, vendorLocation, excludedIds, haversine).Failed? <==>
      exists i :: 0 <= i < |excludedIds| && !IsObjectIdString(excludedIds[i])
    ensures Assignment(users, vendorLocation, excludedIds, haversine).NoRiders? <==>
      (forall i :: 0 <= i < |excludedIds| ==> IsObjectIdString(excludedIds[i])) &&
      (forall r :: r in users ==>
        !(r.role == "rider" && r.isOnline && r.isAvailable && !Excludes(excludedIds, r) && HasCoordinates(r.liveLocation)))
  {
    var p := ParseExclusions(excludedIds);
    if p.Some? {
      forall r {:trigger r in users} | r in users
        ensures IsCandidate(r, p.value) <==>
          (r.role == "rider" && r.isOnline && r.isAvailable && !Excludes(excludedIds, r) && HasCoordinates(r.liveLocation))
      {
        ExcludedIffParsed(excludedIds, p.value, r);
      }
      if Candidates(users, p.value) != [] {
        var x := Candidates(users, p.value)[0];
        assert x in Candidates(users, p.value);
      }
    }
  }

  lemma ExcludedIffParsed(excludedIds: seq<string>, parsed: seq<string>, r: Rider)
    requires ParseExclusions(excludedIds) == Some(parsed)
    ensures r.id in parsed <==> Excludes(excludedIds, r)
  {
    if r.id in parsed {
      var i :| 0 <= i < |parsed| && parsed[i] == r.id;
      assert ObjectIdOf(excludedIds[i]) == Some(r.id);
    }
  }

  /** On an offer, the rider is eligible and the earliest nearest eligible rider;
      in particular a rider named by an exclusion id is never offered the order,
      whatever the distances. */
  lemma OfferedRiderIsEarliestNearest(users: seq<Rider>, vendorLocation: Option<Location>,
                                      excludedIds: seq<string>, haversine: Haversine)
    returns (k: nat)
    requires Assignment(users, vendorLocation, excludedIds, haversine).Offered?
    ensures k < |users| && users[k] == Assignment(users, vendorLocation, excludedIds, haversine).rider
    ensures users[k].role == "rider" && users[k].isOnline && users[k].isAvailable
    ensures HasCoordinates(users[k].liveLocation)
    ensures !Excludes(excludedIds, users[k])
    ensures forall j :: 0 <= j < |users| && IsCandidate(users[j], ParseExclusions(excludedIds).value) ==>
      DistLe(RiderDistance(vendorLocation, haversine, users[k]), RiderDistance(vendorLocation, haversine, users[j]))
    ensures forall j :: 0 <= j < k && IsCandidate(users[j], ParseExclusions(excludedIds).value) ==>
      !DistLe(RiderDistance(vendorLocation, haversine, users[j]), RiderDistance(vendorLocation, haversine, users[k]))
  {
    var parsed := ParseExclusions(excludedIds).value;
    k := NearestIsEarliestClosest(users, parsed, vendorLocation, haversine);
    ExcludedIffParsed(excludedIds, parsed, users[k]);
  }

  /** `nearestRider.firebaseUid || nearestRider._id.toString()`. */
  function OfferedId(r: Rider): string {
    OrElse(r.firebaseUid, r.id)
  }

  /** The `$set` the outcome writes on the order; a failed attempt writes nothing. */
  function Apply(o: Order, outcome: AssignOutcome): Order {
    match outcome
    case Failed => o
    case NoRiders =>
      o.(visibleToRiderId := None, status := "pending", assignmentStatus := Some("no_riders_available"))
    case Offered(r) =>
      o.(visibleToRiderId := Some(OfferedId(r)), status := "requesting_rider", assignmentStatus := Some("assigned"))
  }

  /** Assignment writes only `visibleToRiderId`, `status` and `assignmentStatus`: the
      rider, the vendor location and the rejection list of the order stay as they were. */
  lemma ApplyTouchesOnlyDispatchFields(o: Order, outcome: AssignOutcome)
    ensures Apply(o, outcome).riderId == o.riderId
    ensures Apply(o, outcome).vendorLocation == o.vendorLocation
    ensures Apply(o, outcome).rejectedByRiders == o.rejectedByRiders
    ensures outcome.NoRiders? ==>
      Apply(o, outcome).visibleToRiderId.None? && Apply(o, outcome).status == "pending" &&
      Apply(o, outcome).assignmentStatus == Some("no_riders_available")
    ensures outcome.Offered? ==>
      Apply(o, outcome).visibleToRiderId == Some(OfferedId(outcome.rider)) &&
      Apply(o, outcome).status == "requesting_rider" && Apply(o, outcome).assignmentStatus == Some("assigned")
  {
  }

  /** The sweep's query: status pending, preparing or ready, no rider, not offered. */
  predicate AwaitingRider(o: Order) {
    o.status in {"pending", "preparing", "ready"} && o.riderId.None? && o.visibleToRiderId.None?
  }

  /** `order.rejectedByRiders || []`. */
  function Excluded(o: Order): seq<string> {
    match o.rejectedByRiders
    case None => []
    case Some(ids) => ids
  }

  /** What one sweep does to one order. */
  function Swept(o: Order, users: seq<Rider>, haversine: Haversine): Order {
    if AwaitingRider(o) && o.vendorLocation.Some? then
      Apply(o, Assignment(users, o.vendorLocation, Excluded(o), haversine))
    else o
  }

  function SweepAll(orders: map<OrderId, Order>, users: seq<Rider>, haversine: Haversine): map<OrderId, Order> {
    map k | k in orders :: Swept(orders[k], users, haversine)
  }

  /** The orders the sweep's query finds, in the order the store enumerates them. */
  function PendingIds(enumeration: seq<OrderId>, orders: map<OrderId, Order>): (r: seq<OrderId>)
    ensures forall k :: k in r <==> k in enumeration && k in orders && AwaitingRider(orders[k])
    ensures |r| <= |enumeration|
  {
    if enumeration == [] then []
    else
      var k := enumeration[0];
      assert enumeration == [k] + enumeration[1..];
      (if k in orders && AwaitingRider(orders[k]) then [k] else []) + PendingIds(enumeration[1..], orders)
  }

  lemma PendingIdsDistinct(enumeration: seq<OrderId>, orders: map<OrderId, Order>)
    requires forall i, j :: 0 <= i < j < |enumeration| ==> enumeration[i] != enumeration[j]
    ensures forall i, j :: 0 <= i < j < |PendingIds(enumeration, orders)| ==>
      PendingIds(enumeration, orders)[i] != PendingIds(enumeration, orders)[j]
  {
    if enumeration != [] {
      PendingIdsDistinct(enumeration[1..], orders);
      var k := enumeration[0];
      assert k !in enumeration[1..];
      assert k !in PendingIds(enumeration[1..], orders);
    }
  }

  /** A sweep leaves every order that is not awaiting a rider, or has no vendor
      location, exactly as it was; it writes the assignment outcome on the others, and
      never offers one of them to a rider its rejection list names. */
  lemma SweepRespectsRejections(orders: map<OrderId, Order>, users: seq<Rider>, haversine: Haversine, k: OrderId)
    requires k in orders
    ensures k in SweepAll(orders, users, haversine)
    ensures !(AwaitingRider(orders[k]) && orders[k].vendorLocation.Some?) ==>
      SweepAll(orders, users, haversine)[k] == orders[k]
    ensures AwaitingRider(orders[k]) && orders[k].vendorLocation.Some? ==>
      var outcome := Assignment(users, orders[k].vendorLocation, Excluded(orders[k]), haversine);
      && SweepAll(orders, users, haversine)[k] == Apply(orders[k], outcome)
      && (outcome.Offered? ==> outcome.rider in users && !Excludes(Excluded(orders[k]), outcome.rider))
  {
    var o := orders[k];
    if AwaitingRider(o) && o.vendorLocation.Some? {
      var outcome := Assignment(users, o.vendorLocation, Excluded(o), haversine);
      if outcome.Offered? {
        var i := OfferedRiderIsEarliestNearest(users, o.vendorLocation, Excluded(o), haversine);
      }
    }
  }

  /** Sweeping again without a change in the rider population changes nothing more:
      an offered order is no longer awaiting, and an order left waiting gets the same
      outcome again. */
  lemma {:induction false} SweepIdempotent(orders: map<OrderId, Order>, users: seq<Rider>, haversine: Haversine)
    ensures SweepAll(SweepAll(orders, users, haversine), users, haversine) == SweepAll(orders, users, haversine)
  {
    var once := SweepAll(orders, users, haversine);
    forall k | k in once
      ensures Swept(once[k], users, haversine) == once[k]
    {
      var o := orders[k];
      if AwaitingRider(o) && o.vendorLocation.Some? {
        var outcome := Assignment(users, o.vendorLocation, Excluded(o), haversine);
        ApplyTouchesOnlyDispatchFields(o, outcome);
        ApplyTouchesOnlyDispatchFields(Apply(o, outcome), outcome);
      }
    }
  }

  /** The store the two operations work on: the riders in the `users` collection, the
      `orders` collection, and the order in which the store enumerates the orders. */
  class DispatchStore {
    var users: seq<Rider>
    var orders: map<OrderId, Order>
    var enumeration: seq<OrderId>

    /** The enumeration lists every order exactly once. */
    ghost predicate Valid()
      reads this
    {
      && (forall k :: k in orders <==> k in enumeration)
      && (forall i, j :: 0 <= i < j < |enumeration| ==> enumeration[i] != enumeration[j])
    }

    constructor (users: seq<Rider>, orders: map<OrderId, Order>, enumeration: seq<OrderId>)
      requires forall k :: k in orders <==> k in enumeration
      requires forall i, j :: 0 <= i < j < |enumeration| ==> enumeration[i] != enumeration[j]
      ensures Valid()
      ensures this.users == users && this.orders == orders && this.enumeration == enumeration
    {
      this.users := users;
      this.orders := orders;
      this.enumeration := enumeration;
    }

    /** `assignOrderToNearestRider`: decides the outcome from the riders alone and writes
        it on the one order named; an id with no order matches nothing and writes nothing.
        No rider record is touched, so the same rider may be offered many orders. */
    method AssignOrderToNearestRider(orderId: OrderId, vendorLocation: Option<Location>,
                                     excludedRiderIds: seq<string>, haversine: Haversine)
      returns (outcome: AssignOutcome)
      requires Valid()
      modifies this
      ensures Valid()
      ensures users == old(users) && enumeration == old(enumeration)
      ensures outcome == Assignment(old(users), vendorLocation, excludedRiderIds, haversine)
      ensures orderId in old(orders) ==> orders == old(orders)[orderId := Apply(old(orders)[orderId], outcome)]
      ensures orderId !in old(orders) ==> orders == old(orders)
    {
      var parsed := ParseExclusions(excludedRiderIds);
      if parsed.None? {
        return Failed;
      }
      var validRiders := Candidates(users, parsed.value);
      if validRiders == [] {
        outcome := NoRiders;
      } else {
        outcome := Offered(Nearest(validRiders, vendorLocation, haversine));
      }
      if orderId in orders {
        orders := orders[orderId := Apply(orders[orderId], outcome)];
      }
    }

    /** `checkAndAssignPendingOrders`: takes the awaiting orders as they stand when it
        starts and runs assignment on each one with a vendor location, excluding the
        riders that order's rejection list names. */
    method CheckAndAssignPendingOrders(haversine: Haversine)
      requires Valid()
      modifies this
      ensures Valid()
      ensures users == old(users) && enumeration == old(enumeration)
      ensures orders == SweepAll(old(orders), old(users), haversine)
    {
      var snapshot, scan := orders, enumeration;
      var pendingOrders := PendingIds(scan, snapshot);
      PendingIdsDistinct(scan, snapshot);
      for i := 0 to |pendingOrders|
        invariant SweepProgress(i, pendingOrders, snapshot, old(users), old(enumeration), haversine)
      {
        SweepOne(i, pendingOrders, snapshot, old(users), old(enumeration), haversine);
      }
      assert pendingOrders[..|pendingOrders|] == pendingOrders;
      assert forall k :: k in snapshot ==> orders[k] == Swept(snapshot[k], users, haversine);
    }

    /** After `i` turns of the sweep: the first `i` awaiting orders are swept and every
        other order is as it was in the snapshot. */
    ghost predicate SweepProgress(i: nat, pending: seq<OrderId>, snapshot: map<OrderId, Order>,
                                  users0: seq<Rider>, enumeration0: seq<OrderId>, haversine: Haversine)
      reads this
    {
      && i <= |pending|
      && Valid()
      && users == users0 && enumeration == enumeration0
      && orders.Keys == snapshot.Keys
      && (forall a, b :: 0 <= a < b < |pending| ==> pending[a] != pending[b])
      && (forall k :: k in pending ==> k in snapshot && AwaitingRider(snapshot[k]))
      && (forall k :: k in snapshot ==>
            orders[k] == if k in pending[..i] then Swept(snapshot[k], users, haversine) else snapshot[k])
    }

    /** One turn of the sweep: the `i`-th awaiting order is assigned from the snapshot. */
    method SweepOne(i: nat, pending: seq<OrderId>, snapshot: map<OrderId, Order>,
                    ghost users0: seq<Rider>, ghost enumeration0: seq<OrderId>, haversine: Haversine)
      requires i < |pending|
      requires SweepProgress(i, pending, snapshot, users0, enumeration0, haversine)
      modifies this
      ensures SweepProgress(i + 1, pending, snapshot, users0, enumeration0, haversine)
    {
      var id := pending[i];
      var order := snapshot[id];
      forall j | 0 <= j < i ensures pending[j] != id {}
      assert id !in pending[..i];
      assert pending[..i + 1] == pending[..i] + [id];
      ghost var before := orders;
      assert before[id] == order;
      if order.vendorLocation.Some? {
        var _ := AssignOrderToNearestRider(id, order.vendorLocation, Excluded(order), haversine);
      } else {
        assert Swept(order, users, haversine) == order;
      }
      assert orders == before[id := Swept(order, users, haversine)];
    }

    /** Rejection, whose endpoint is not part of this model, as the integration script
        drives it: the rider id is appended to the order's rejection list and the order
        is assigned again from its vendor location. */
    method RejectAndReassign(orderId: OrderId, riderId: string, haversine: Haversine)
      returns (outcome: Option<AssignOutcome>)
      requires Valid()
      modifies this
      ensures Valid()
      ensures users == old(users) && enumeration == old(enumeration)
      ensures orderId !in old(orders) ==> orders == old(orders) && outcome.None?
      ensures orderId in old(orders) ==>
        var o := old(orders)[orderId];
        var rejected := o.(rejectedByRiders := Some(Excluded(o) + [riderId]));
        outcome == Some(Assignment(old(users), o.vendorLocation, Excluded(rejected), haversine)) &&
        orders == old(orders)[orderId := Apply(rejected, outcome.value)]
    {
      if orderId !in orders {
        return None;
      }
      var o := orders[orderId];
      var rejected := o.(rejectedByRiders := Some(Excluded(o) + [riderId]));
      orders := orders[orderId := rejected];
      var result := AssignOrderToNearestRider(orderId, o.vendorLocation, Excluded(rejected), haversine);
      outcome := Some(result);
    }
  }

  /** The two riders of the integration script (scripts/verify_assignment.js): both
      online and available, the first right next to the vendor, the second farther away. */
  function ScriptVendor(): Option<Location> { Some(Location(Some(28.6138), Some(77.2089))) }
  function ScriptRider1(): Rider {
    Rider("aaaaaaaaaaaaaaaaaaaaaaaa", None, "rider", true, true, Some(Location(Some(28.6139), Some(77.2090))))
  }
  function ScriptRider2(): Rider {
    Rider("bbbbbbbbbbbbbbbbbbbbbbbb", None, "rider", true, true, Some(Location(Some(28.6200), Some(77.2100))))
  }

  /** The order is first offered to the nearer rider, under the rider's `_id` string
      since it has no firebaseUid. */
  lemma ScriptOffersNearerRiderFirst(haversine: Haversine)
    requires haversine(28.6138, 77.2089, 28.6139, 77.2090) < haversine(28.6138, 77.2089, 28.6200, 77.2100)
    ensures Assignment([ScriptRider1(), ScriptRider2()], ScriptVendor(), [], haversine) == Offered(ScriptRider1())
    ensures OfferedId(ScriptRider1()) == "aaaaaaaaaaaaaaaaaaaaaaaa"
  {
    var r1, r2 := ScriptRider1(), ScriptRider2();
    var le := Closer(ScriptVendor(), haversine);
    assert [r1, r2][1..] == [r2] && [r2][1..] == [];
    assert Candidates([r2], []) == [r2];
    assert Candidates([r1, r2], []) == [r1, r2];
    Sorting.SortBySingleton(r2, le);
    Sorting.SortByHead(r1, [r2], le);
    assert le(r1, r2);
  }

  /** Once the nearer rider has rejected the order, it is offered to the other rider. */
  lemma ScriptOffersOtherRiderAfterRejection(haversine: Haversine)
    ensures Assignment([ScriptRider1(), ScriptRider2()], ScriptVendor(), [ScriptRider1().id], haversine)
      == Offered(ScriptRider2())
  {
    var r1, r2 := ScriptRider1(), ScriptRider2();
    assert ObjectIdOf([r1.id][0]) == Some(r1.id);
    var parsed := ParseExclusions([r1.id]);
    assert parsed.Some? && |parsed.value| == 1 && parsed.value[0] == r1.id;
    assert parsed.value == [r1.id];
    assert r2.id != r1.id;
    assert [r1, r2][1..] == [r2] && [r2][1..] == [];
    assert Candidates([r2], [r1.id]) == [r2];
    assert Candidates([r1, r2], [r1.id]) == [r2];
    Sorting.SortBySingleton(r2, Closer(ScriptVendor(), haversine));
  }
}
