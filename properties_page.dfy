/** The properties list: deleting a property, the type and status labels
    and the summary cards (property counts by type and status, and room
    totals). */
module PropertiesPage {
  import opened Seqs

  /** A property row; `kind` is the source's `type` ("hotel" or "boarding"). */
  datatype Property = Property(
    id: string,
    name: string,
    kind: string,
    address: string,
    rooms: int,
    occupancy: string,
    status: string)

  const SampleProperties: seq<Property> := [
    Property("1", "Grand Hotel", "hotel", "123 Main St, New York, NY", 32, "75%", "active"),
    Property("2", "City Boarding House", "boarding", "456 Park Ave, Boston, MA", 18, "60%", "active"),
    Property("3", "Beach Resort", "hotel", "789 Ocean Dr, Miami, FL", 24, "90%", "active"),
    Property("4", "Mountain Lodge", "boarding", "101 Pine Rd, Denver, CO", 12, "40%", "maintenance"),
    Property("5", "Downtown Suites", "hotel", "202 Central St, Chicago, IL", 28, "85%", "active"),
    Property("6", "Riverside Inn", "hotel", "303 River Rd, New Orleans, LA", 20, "70%", "active"),
    Property("7", "Harbor View", "boarding", "404 Harbor St, San Francisco, CA", 15, "80%", "active"),
    Property("8", "Sunset Motel", "hotel", "505 Sunset Blvd, Los Angeles, CA", 30, "65%", "active"),
    Property("9", "Lakeside Cabins", "boarding", "606 Lake Dr, Minneapolis, MN", 10, "50%", "maintenance"),
    Property("10", "Urban Lofts", "boarding", "707 Urban St, Portland, OR", 14, "75%", "active"),
    Property("11", "Royal Palace Hotel", "hotel", "808 Royal Ave, Las Vegas, NV", 50, "95%", "active"),
    Property("12", "Cozy Corner Inn", "boarding", "909 Cozy Ln, Nashville, TN", 8, "60%", "active")
  ]

  // ---------------------------------------------------------------------
  // Room totals
  // ---------------------------------------------------------------------

  /** `reduce((acc, p) => acc + p.rooms, 0)`. */
  function RoomSum(ps: seq<Property>): (r: int)
    ensures (forall i :: 0 <= i < |ps| ==> ps[i].rooms >= 0) ==> r >= 0
  {
    if ps == [] then 0
    else
      assert forall i :: 1 <= i < |ps| ==> ps[1..][i - 1] == ps[i];
      ps[0].rooms + RoomSum(ps[1..])
  }

  /** The room total of a concatenation is the sum of the two totals. */
  lemma {:induction false} RoomSumAppend(a: seq<Property>, b: seq<Property>)
    ensures RoomSum(a + b) == RoomSum(a) + RoomSum(b)
  {
    if a == [] {
      assert a + b == b;
    } else {
      RoomSumAppend(a[1..], b);
      assert (a + b)[1..] == a[1..] + b;
    }
  }

  /** Two tests of which exactly one holds split the room total between
      them. */
  lemma {:induction false} RoomSumPartition(ps: seq<Property>, f: Property -> bool, g: Property -> bool)
    requires forall p :: p in ps ==> f(p) != g(p)
    ensures RoomSum(Filter(ps, f)) + RoomSum(Filter(ps, g)) == RoomSum(ps)
  {
    if ps != [] {
      RoomSumPartition(ps[1..], f, g);
      if f(ps[0]) {
        assert Filter(ps, f) == [ps[0]] + Filter(ps[1..], f);
        assert ([ps[0]] + Filter(ps[1..], f))[1..] == Filter(ps[1..], f);
      } else {
        assert Filter(ps, g) == [ps[0]] + Filter(ps[1..], g);
        assert ([ps[0]] + Filter(ps[1..], g))[1..] == Filter(ps[1..], g);
      }
    }
  }

  // ---------------------------------------------------------------------
  // Deleting
  // ---------------------------------------------------------------------

  /** The list without the properties that have id `id`, the others in order. */
  function WithoutId(ps: seq<Property>, id: string): (r: seq<Property>)
    ensures IsSubsequence(r, ps)
    ensures forall p :: p in r <==> p in ps && p.id != id
  {
    FilterIsSubsequence(ps, (p: Property) => p.id != id);
    Filter(ps, (p: Property) => p.id != id)
  }

  predicate DistinctIds(ps: seq<Property>) {
    forall i, j :: 0 <= i < j < |ps| ==> ps[i].id != ps[j].id
  }

  /** With distinct ids, the properties with `ps[k]`'s id are just `ps[k]`. */
  lemma {:induction false} OnlyOneWithId(ps: seq<Property>, k: nat)
    requires k < |ps| && DistinctIds(ps)
    ensures Filter(ps, (p: Property) => p.id == ps[k].id) == [ps[k]]
  {
    var id := ps[k].id;
    var f := (p: Property) => p.id == id;
    if k == 0 {
      FilterRejectsAll(ps[1..], f);
    } else {
      OnlyOneWithId(ps[1..], k - 1);
      assert ps[1..][k - 1] == ps[k];
      assert ps[0].id != id;
    }
  }

  /** Deleting a property lowers the room total by exactly its rooms, and
      an id no property has changes nothing. */
  lemma DeleteLowersRooms(ps: seq<Property>, id: string)
    requires DistinctIds(ps)
    ensures forall k :: 0 <= k < |ps| && ps[k].id == id ==> RoomSum(WithoutId(ps, id)) == RoomSum(ps) - ps[k].rooms
    ensures (forall k :: 0 <= k < |ps| ==> ps[k].id != id) ==> WithoutId(ps, id) == ps
  {
    RoomSumPartition(ps, (p: Property) => p.id != id, (p: Property) => p.id == id);
    forall k | 0 <= k < |ps| && ps[k].id == id
      ensures RoomSum(WithoutId(ps, id)) == RoomSum(ps) - ps[k].rooms
    {
      OnlyOneWithId(ps, k);
      assert RoomSum([ps[k]]) == ps[k].rooms;
    }
    if forall k :: 0 <= k < |ps| ==> ps[k].id != id {
      FilterKeepsAll(ps, (p: Property) => p.id != id);
    }
  }

  // ---------------------------------------------------------------------
  // Labels
  // ---------------------------------------------------------------------

  /** The type badge: "hotel" reads "Hotel", anything else "Boarding House". */
  function TypeLabel(kind: string): (r: string)
    ensures r == "Hotel" <==> kind == "hotel"
    ensures r == "Boarding House" <==> kind != "hotel"
  {
    if kind == "hotel" then "Hotel" else "Boarding House"
  }

  datatype BadgeVariant = Default | Secondary

  /** The status badge: "active" reads "Active" in the default style,
      anything else "Maintenance" in the secondary style. */
  function StatusLabel(status: string): (r: string)
    ensures r == "Active" <==> status == "active"
    ensures r == "Maintenance" <==> status != "active"
  {
    if status == "active" then "Active" else "Maintenance"
  }

  function StatusBadge(status: string): (v: BadgeVariant)
    ensures v == Default <==> StatusLabel(status) == "Active"
  {
    if status == "active" then Default else Secondary
  }

  // ---------------------------------------------------------------------
  // Summary cards
  // ---------------------------------------------------------------------

  function OfKind(ps: seq<Property>, kind: string): (r: seq<Property>)
    ensures forall p :: p in r <==> p in ps && p.kind == kind
  {
    Filter(ps, (p: Property) => p.kind == kind)
  }

  function WithStatus(ps: seq<Property>, status: string): (r: seq<Property>)
    ensures forall p :: p in r <==> p in ps && p.status == status
  {
    Filter(ps, (p: Property) => p.status == status)
  }

  datatype Cards = Cards(
    total: nat, hotels: nat, boardingHouses: nat,
    totalRooms: int, hotelRooms: int, boardingRooms: int,
    active: nat, maintenance: nat)

  /** The cards: counts by type, room totals by type, counts by status.
      Hotels and boarding houses never outnumber the properties, nor do
      active and maintenance ones. */
  function SummaryCards(ps: seq<Property>): (c: Cards)
    ensures c.total == |ps|
    ensures c.hotels + c.boardingHouses <= c.total
    ensures c.active + c.maintenance <= c.total
  {
    FilterDisjointLength(ps, (p: Property) => p.kind == "hotel", (p: Property) => p.kind == "boarding");
    FilterDisjointLength(ps, (p: Property) => p.status == "active", (p: Property) => p.status == "maintenance");
    Cards(|ps|, |OfKind(ps, "hotel")|, |OfKind(ps, "boarding")|,
          RoomSum(ps), RoomSum(OfKind(ps, "hotel")), RoomSum(OfKind(ps, "boarding")),
          |WithStatus(ps, "active")|, |WithStatus(ps, "maintenance")|)
  }

  /** When every property is a hotel or a boarding house, the two counts
      and the two room totals add up to the whole; when every status is
      active or maintenance, the two status counts do. */
  lemma CardsAddUp(ps: seq<Property>)
    ensures (forall p :: p in ps ==> p.kind in {"hotel", "boarding"}) ==>
              SummaryCards(ps).hotels + SummaryCards(ps).boardingHouses == SummaryCards(ps).total &&
              SummaryCards(ps).hotelRooms + SummaryCards(ps).boardingRooms == SummaryCards(ps).totalRooms
    ensures (forall p :: p in ps ==> p.status in {"active", "maintenance"}) ==>
              SummaryCards(ps).active + SummaryCards(ps).maintenance == SummaryCards(ps).total
  {
    var hotel := (p: Property) => p.kind == "hotel";
    var boarding := (p: Property) => p.kind == "boarding";
    if forall p :: p in ps ==> p.kind in {"hotel", "boarding"} {
      FilterPartitionLength(ps, hotel, boarding);
      RoomSumPartition(ps, hotel, boarding);
    }
    if forall p :: p in ps ==> p.status in {"active", "maintenance"} {
      FilterPartitionLength(ps, (p: Property) => p.status == "active", (p: Property) => p.status == "maintenance");
    }
  }

  // ---------------------------------------------------------------------
  // The sample list
  // ---------------------------------------------------------------------

  function Kinds(ps: seq<Property>): (r: seq<string>)
    ensures |r| == |ps| && forall i :: 0 <= i < |ps| ==> r[i] == ps[i].kind
  {
    seq(|ps|, i requires 0 <= i < |ps| => ps[i].kind)
  }

  function Statuses(ps: seq<Property>): (r: seq<string>)
    ensures |r| == |ps| && forall i :: 0 <= i < |ps| ==> r[i] == ps[i].status
  {
    seq(|ps|, i requires 0 <= i < |ps| => ps[i].status)
  }

  function Rooms(ps: seq<Property>): (r: seq<int>)
    ensures |r| == |ps| && forall i :: 0 <= i < |ps| ==> r[i] == ps[i].rooms
  {
    seq(|ps|, i requires 0 <= i < |ps| => ps[i].rooms)
  }

  /** The sum of `rooms[j]` for the `j >= i` whose key is `key`. */
  function RoomsFrom(keys: seq<string>, rooms: seq<int>, key: string, i: nat): int
    requires |keys| == |rooms| && i <= |keys|
    decreases |keys| - i
  {
    if i == |keys| then 0 else (if keys[i] == key then rooms[i] else 0) + RoomsFrom(keys, rooms, key, i + 1)
  }

  lemma {:induction false} CountKinds(ps: seq<Property>, kind: string, i: nat)
    requires i <= |ps|
    ensures CountFrom(Kinds(ps), kind, i) == |OfKind(ps[i..], kind)|
    ensures RoomsFrom(Kinds(ps), Rooms(ps), kind, i) == RoomSum(OfKind(ps[i..], kind))
    decreases |ps| - i
  {
    if i < |ps| {
      CountKinds(ps, kind, i + 1);
      assert ps[i..][1..] == ps[i + 1..];
      var rest := OfKind(ps[i + 1..], kind);
      if ps[i].kind == kind {
        assert OfKind(ps[i..], kind) == [ps[i]] + rest;
        assert ([ps[i]] + rest)[1..] == rest;
      }
    }
  }

  lemma {:induction false} CountStatuses(ps: seq<Property>, status: string, i: nat)
    requires i <= |ps|
    ensures CountFrom(Statuses(ps), status, i) == |WithStatus(ps[i..], status)|
    decreases |ps| - i
  {
    if i < |ps| {
      CountStatuses(ps, status, i + 1);
      assert ps[i..][1..] == ps[i + 1..];
    }
  }

  const SampleKinds: seq<string> := [
    "hotel", "boarding", "hotel", "boarding", "hotel", "hotel",
    "boarding", "hotel", "boarding", "boarding", "hotel", "boarding"]
  const SampleStatuses: seq<string> := [
    "active", "active", "active", "maintenance", "active", "active",
    "active", "active", "maintenance", "active", "active", "active"]
  const SampleRooms: seq<int> := [32, 18, 24, 12, 28, 20, 15, 30, 10, 14, 50, 8]

  /** The sample list has the sample's types, statuses and room numbers,
      so `CardsOfSampleShape` gives its cards. */
  lemma SampleProjections()
    ensures Kinds(SampleProperties) == SampleKinds
    ensures Statuses(SampleProperties) == SampleStatuses
    ensures Rooms(SampleProperties) == SampleRooms
  {
  }

  lemma SampleCounts()
    ensures CountFrom(SampleKinds, "hotel", 0) == 6 && CountFrom(SampleKinds, "boarding", 0) == 6
    ensures CountFrom(SampleStatuses, "active", 0) == 10 && CountFrom(SampleStatuses, "maintenance", 0) == 2
  {
  }

  lemma SampleRoomTotals()
    ensures RoomsFrom(SampleKinds, SampleRooms, "hotel", 0) == 184
    ensures RoomsFrom(SampleKinds, SampleRooms, "boarding", 0) == 77
  {
  }

  /** With the sample's types and room numbers: 6 hotels with 184 rooms
      and 6 boarding houses with 77. */
  lemma KindCardsOfSampleShape(ps: seq<Property>)
    requires Kinds(ps) == SampleKinds && Rooms(ps) == SampleRooms
    ensures |OfKind(ps, "hotel")| == 6 && |OfKind(ps, "boarding")| == 6
    ensures RoomSum(OfKind(ps, "hotel")) == 184 && RoomSum(OfKind(ps, "boarding")) == 77
  {
    SampleCounts();
    SampleRoomTotals();
    CountKinds(ps, "hotel", 0);
    CountKinds(ps, "boarding", 0);
    assert ps[0..] == ps;
  }

  /** With the sample's statuses: 10 active and 2 in maintenance. */
  lemma StatusCardsOfSampleShape(ps: seq<Property>)
    requires Statuses(ps) == SampleStatuses
    ensures |WithStatus(ps, "active")| == 10 && |WithStatus(ps, "maintenance")| == 2
  {
    SampleCounts();
    CountStatuses(ps, "active", 0);
    CountStatuses(ps, "maintenance", 0);
    assert ps[0..] == ps;
  }

  /** With the sample's types, every property is a hotel or a boarding house. */
  lemma SampleShapeKinds(ps: seq<Property>)
    requires Kinds(ps) == SampleKinds
    ensures forall p :: p in ps ==> p.kind in {"hotel", "boarding"}
  {
    forall p | p in ps ensures p.kind in {"hotel", "boarding"} {
      var i :| 0 <= i < |ps| && ps[i] == p;
      assert Kinds(ps)[i] == SampleKinds[i];
    }
  }

  /** Any list with the sample's types, statuses and room numbers shows the
      sample's cards: 12 properties (6 hotels, 6 boarding houses), 261
      rooms (184 and 77), 10 active and 2 in maintenance. */
  lemma CardsOfSampleShape(ps: seq<Property>)
    requires Kinds(ps) == SampleKinds && Statuses(ps) == SampleStatuses && Rooms(ps) == SampleRooms
    ensures SummaryCards(ps) == Cards(12, 6, 6, 261, 184, 77, 10, 2)
  {
    KindCardsOfSampleShape(ps);
    StatusCardsOfSampleShape(ps);
    SampleShapeKinds(ps);
    CardsAddUp(ps);
  }

  // ---------------------------------------------------------------------
  // The page
  // ---------------------------------------------------------------------

  class PropertiesPage {
    var properties: seq<Property>

    constructor()
      ensures properties == SampleProperties
    {
      properties := SampleProperties;
    }

    /** The confirmed "Delete Property" of a row. */
    method Delete(id: string)
      modifies this
      ensures properties == WithoutId(old(properties), id)
    {
      properties := WithoutId(properties, id);
    }
  }
}
