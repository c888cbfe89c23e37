/** The "Add New Room" page: the text and select fields, the amenity
    checkboxes and the form the page starts from. */
module CreateRoom {
  import opened Seqs

  /** The amenity checkboxes, by id. */
  const AmenityIds: seq<string> :=
    ["tv", "wifi", "ac", "minibar", "safe", "desk", "bathtub", "shower", "hairdryer"]

  /** The text and select fields, keyed by name. */
  type RoomFields = map<string, string>

  const TextFields: set<string> := {
    "number", "type", "propertyId", "capacity", "rate", "status", "description",
    "size", "bedType", "maxOccupancy"}

  const InitialFields: RoomFields := map[
    "number" := "", "type" := "", "propertyId" := "", "capacity" := "2", "rate" := "",
    "status" := "available", "description" := "", "size" := "", "bedType" := "",
    "maxOccupancy" := "2"]

  /** A room starts available for two, with two as its maximum occupancy,
      and every other field empty. */
  lemma InitialFieldValues()
    ensures InitialFields.Keys == TextFields
    ensures InitialFields["status"] == "available"
    ensures InitialFields["capacity"] == "2" && InitialFields["maxOccupancy"] == "2"
    ensures forall k :: k in TextFields - {"status", "capacity", "maxOccupancy"} ==> InitialFields[k] == ""
  {
  }

  // ---------------------------------------------------------------------
  // Amenities
  // ---------------------------------------------------------------------

  /** Whether the checkbox for `id` shows checked. */
  predicate Checked(amenities: seq<string>, id: string) {
    Includes(amenities, id)
  }

  /** The list after the checkbox for `id` is ticked (`checked`) or cleared:
      ticking appends the id, clearing drops every occurrence of it. */
  function Toggled(amenities: seq<string>, id: string, checked: bool): (r: seq<string>)
    ensures checked ==> r == amenities + [id]
    ensures !checked ==> IsSubsequence(r, amenities) && id !in r
    ensures forall x :: x != id ==> (x in r <==> x in amenities)
  {
    if checked then amenities + [id]
    else
      FilterIsSubsequence(amenities, (x: string) => x != id);
      Filter(amenities, (x: string) => x != id)
  }

  /** After a change the checkbox shows what was chosen, and no other
      checkbox changes. */
  lemma CheckboxFollows(amenities: seq<string>, id: string, checked: bool, other: string)
    ensures Checked(Toggled(amenities, id, checked), id) == checked
    ensures other != id ==> Checked(Toggled(amenities, id, checked), other) == Checked(amenities, other)
  {
  }

  /** Clearing removes every copy of the id and keeps the count of every
      other amenity. */
  lemma {:induction false} ClearCounts(amenities: seq<string>, id: string)
    ensures multiset(Toggled(amenities, id, false))[id] == 0
    ensures forall x :: x != id ==> multiset(Toggled(amenities, id, false))[x] == multiset(amenities)[x]
  {
    if amenities != [] {
      ClearCounts(amenities[1..], id);
      assert amenities == [amenities[0]] + amenities[1..];
      var f := (x: string) => x != id;
      if f(amenities[0]) {
        assert Filter(amenities, f) == [amenities[0]] + Filter(amenities[1..], f);
      }
    }
  }

  /** Ticking adds one copy even when the id is already there, so ticking
      twice lists it twice. */
  lemma TickAppendsCopy(amenities: seq<string>, id: string)
    ensures multiset(Toggled(amenities, id, true)) == multiset(amenities) + multiset{id}
    ensures multiset(Toggled(Toggled(amenities, id, true), id, true))[id] == multiset(amenities)[id] + 2
  {
  }

  /** Clearing right after ticking a new id gives the list back. */
  lemma {:induction false} ClearUndoesTick(amenities: seq<string>, id: string)
    requires id !in amenities
    ensures Toggled(Toggled(amenities, id, true), id, false) == amenities
  {
    var f := (x: string) => x != id;
    FilterAppend(amenities, [id], f);
    FilterKeepsAll(amenities, f);
    assert Filter([id], f) == [];
  }

  /** Clearing an id is idempotent. */
  lemma ClearTwice(amenities: seq<string>, id: string)
    ensures Toggled(Toggled(amenities, id, false), id, false) == Toggled(amenities, id, false)
  {
    var r := Toggled(amenities, id, false);
    FilterKeepsAll(r, (x: string) => x != id);
  }

  // ---------------------------------------------------------------------
  // The page
  // ---------------------------------------------------------------------

  const RoomsPath := "/dashboard/rooms"

  class NewRoomPage {
    var fields: RoomFields
    var amenities: seq<string>

    constructor()
      ensures fields == InitialFields && amenities == []
    {
      fields := InitialFields;
      amenities := [];
    }

    /** `handleChange` and `handleSelectChange`: field `name` gets `value`,
        nothing else changes. */
    method SetField(name: string, value: string)
      requires name != "amenities"
      modifies this
      ensures fields == old(fields)[name := value]
      ensures amenities == old(amenities)
    {
      fields := fields[name := value];
    }

    /** `handleAmenityChange`: the checkbox for `id` was ticked or cleared;
        the other fields keep their values. */
    method ChangeAmenity(id: string, checked: bool)
      modifies this
      ensures amenities == Toggled(old(amenities), id, checked)
      ensures fields == old(fields)
    {
      amenities := Toggled(amenities, id, checked);
    }

    /** "Create Room": nothing is saved; the page goes to the rooms list. */
    method Submit() returns (redirect: string)
      ensures redirect == RoomsPath
    {
      redirect := RoomsPath;
    }
  }
}
