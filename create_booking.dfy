/** The "Create New Booking" page: the guest search, picking a guest, the
    field setters and the form the page starts from. */
module CreateBooking {
  import opened Options
  import opened Seqs
  import opened Strings

  datatype Guest = Guest(id: string, name: string, email: string, phone: string)

  const SampleGuests: seq<Guest> := [
    Guest("1", "John Smith", "john@example.com", "123-456-7890"),
    Guest("2", "Jane Doe", "jane@example.com", "234-567-8901"),
    Guest("3", "Robert Johnson", "robert@example.com", "345-678-9012"),
    Guest("4", "Emily Wilson", "emily@example.com", "456-789-0123")
  ]

  // ---------------------------------------------------------------------
  // The form
  // ---------------------------------------------------------------------

  /** The form is a record keyed by field name; a setter writes `[name]:
      value` into it, so any name is accepted. */
  type BookingForm = map<string, string>

  const FormFields: set<string> := {
    "guestId", "guestName", "guestEmail", "guestPhone", "propertyId", "roomTypeId",
    "roomId", "checkIn", "checkOut", "adults", "children", "paymentStatus"}

  /** The form as first shown. */
  const InitialForm: BookingForm := map[
    "guestId" := "", "guestName" := "", "guestEmail" := "", "guestPhone" := "",
    "propertyId" := "", "roomTypeId" := "", "roomId" := "", "checkIn" := "",
    "checkOut" := "", "adults" := "1", "children" := "0", "paymentStatus" := "pending"]

  /** The form starts with one adult, no children and a pending payment;
      every other field is empty. */
  lemma InitialFormValues()
    ensures InitialForm.Keys == FormFields
    ensures InitialForm["adults"] == "1" && InitialForm["children"] == "0"
    ensures InitialForm["paymentStatus"] == "pending"
    ensures forall k :: k in FormFields - {"adults", "children", "paymentStatus"} ==> InitialForm[k] == ""
  {
  }

  /** `{ ...prev, [name]: value }`. */
  function WithField(form: BookingForm, name: string, value: string): (r: BookingForm)
    ensures r.Keys == form.Keys + {name}
    ensures r[name] == value
    ensures forall k :: k in form && k != name ==> r[k] == form[k]
  {
    form[name := value]
  }

  /** Writing the same field twice keeps only the second value, and writes
      to two different fields can be made in either order. */
  lemma WithFieldLastWins(form: BookingForm, a: string, b: string, x: string, y: string)
    ensures WithField(WithField(form, a, x), a, y) == WithField(form, a, y)
    ensures a != b ==> WithField(WithField(form, a, x), b, y) == WithField(WithField(form, b, y), a, x)
  {
  }

  /** The four guest fields filled in from `g`; the rest kept. */
  function WithGuest(form: BookingForm, g: Guest): (r: BookingForm)
    ensures r.Keys == form.Keys + {"guestId", "guestName", "guestEmail", "guestPhone"}
    ensures r["guestId"] == g.id && r["guestName"] == g.name
    ensures r["guestEmail"] == g.email && r["guestPhone"] == g.phone
    ensures forall k :: k in form && k !in {"guestId", "guestName", "guestEmail", "guestPhone"} ==> r[k] == form[k]
  {
    form["guestId" := g.id]["guestName" := g.name]["guestEmail" := g.email]["guestPhone" := g.phone]
  }

  /** What the room button reads: "Selected" for the chosen room. */
  function RoomButtonLabel(form: BookingForm, roomId: string): (r: string)
    ensures r == "Selected" <==> "roomId" in form && form["roomId"] == roomId
    ensures r == "Select" <==> !("roomId" in form && form["roomId"] == roomId)
  {
    if "roomId" in form && form["roomId"] == roomId then "Selected" else "Select"
  }

  /** Picking a room by its button makes that room's button, and only it,
      read "Selected". */
  lemma RoomButtonAfterPick(form: BookingForm, picked: string, other: string)
    ensures RoomButtonLabel(WithField(form, "roomId", picked), picked) == "Selected"
    ensures other != picked ==> RoomButtonLabel(WithField(form, "roomId", picked), other) == "Select"
  {
  }

  // ---------------------------------------------------------------------
  // The guest search
  // ---------------------------------------------------------------------

  /** A guest matches a query when the lowercased name or email contains the
      lowercased query, or the phone contains the query as typed. */
  predicate Matches(g: Guest, query: string) {
    Contains(Lower(g.name), Lower(query)) || Contains(Lower(g.email), Lower(query)) ||
    Contains(g.phone, query)
  }

  /** The guests the table lists: all of them for an empty query, else the
      matching ones in order. */
  function FilteredGuests(guests: seq<Guest>, query: string): (r: seq<Guest>)
    ensures IsSubsequence(r, guests)
    ensures query == "" ==> r == guests
    ensures forall g :: g in r <==> g in guests && (query == "" || Matches(g, query))
  {
    if query == "" then
      IsSubsequenceReflexive(guests);
      guests
    else
      FilterIsSubsequence(guests, (g: Guest) => Matches(g, query));
      Filter(guests, (g: Guest) => Matches(g, query))
  }

  /** The empty-query shortcut lists what the filter itself would: every
      guest matches the empty query. */
  lemma EmptyQueryMatchesAll(guests: seq<Guest>)
    ensures Filter(guests, (g: Guest) => Matches(g, "")) == FilteredGuests(guests, "")
  {
    forall i | 0 <= i < |guests| ensures Matches(guests[i], "") {
      ContainsEmpty(guests[i].phone);
    }
    FilterKeepsAll(guests, (g: Guest) => Matches(g, ""));
  }

  lemma {:induction false} LowerAppend(a: string, b: string)
    ensures Lower(a + b) == Lower(a) + Lower(b)
  {
    assert forall i :: 0 <= i < |a + b| ==> Lower(a + b)[i] == (Lower(a) + Lower(b))[i];
  }

  /** A guest that matches a longer query matches each of its prefixes. */
  lemma MatchesPrefix(g: Guest, query: string, more: string)
    requires Matches(g, query + more)
    ensures Matches(g, query)
  {
    LowerAppend(query, more);
    if Contains(Lower(g.name), Lower(query + more)) {
      ContainsPrefixOfQuery(Lower(g.name), Lower(query), Lower(more));
    } else if Contains(Lower(g.email), Lower(query + more)) {
      ContainsPrefixOfQuery(Lower(g.email), Lower(query), Lower(more));
    } else {
      ContainsPrefixOfQuery(g.phone, query, more);
    }
  }

  /** Typing more never brings a guest back: the list for a longer query is
      a subsequence of the list for the shorter one. */
  lemma TypingNarrows(guests: seq<Guest>, query: string, more: string)
    ensures IsSubsequence(FilteredGuests(guests, query + more), FilteredGuests(guests, query))
  {
    if query + more == "" {
      assert query == "";
      IsSubsequenceReflexive(guests);
    } else if query == "" {
    } else {
      forall g | g in guests && Matches(g, query + more) ensures Matches(g, query) {
        MatchesPrefix(g, query, more);
      }
      FilterStronger(guests, (g: Guest) => Matches(g, query + more), (g: Guest) => Matches(g, query));
    }
  }

  /** Names and emails are searched without regard to ASCII case: the
      upper-cased query lists the same guests as the query as typed,
      unless a phone number contains one form of it and not the other. */
  lemma SearchIgnoresCase(guests: seq<Guest>, query: string)
    requires forall g :: g in guests ==> (Contains(g.phone, query) <==> Contains(g.phone, Upper(query)))
    ensures FilteredGuests(guests, Upper(query)) == FilteredGuests(guests, query)
  {
    if query != "" {
      LowerOfUpper(query);
      assert Upper(query) != [];
      FilterSameTest(guests, (g: Guest) => Matches(g, Upper(query)), (g: Guest) => Matches(g, query));
    }
  }

  // ---------------------------------------------------------------------
  // The page
  // ---------------------------------------------------------------------

  const BookingsPath := "/dashboard/bookings"

  class NewBookingPage {
    var activeTab: string
    var formData: BookingForm
    var searchQuery: string
    var selectedGuest: Option<Guest>

    constructor()
      ensures activeTab == "guest" && formData == InitialForm
      ensures searchQuery == "" && selectedGuest == None
    {
      activeTab := "guest";
      formData := InitialForm;
      searchQuery := "";
      selectedGuest := None;
    }

    /** The search box. */
    method Search(query: string)
      modifies this
      ensures searchQuery == query
      ensures activeTab == old(activeTab) && formData == old(formData) && selectedGuest == old(selectedGuest)
    {
      searchQuery := query;
    }

    /** The guests the table lists for the current query. */
    function Listed(guests: seq<Guest>): (r: seq<Guest>)
      reads this
      ensures IsSubsequence(r, guests)
    {
      FilteredGuests(guests, searchQuery)
    }

    /** Changing tab through the tab list or a "Continue" button. */
    method SetActiveTab(tab: string)
      modifies this
      ensures activeTab == tab
      ensures formData == old(formData) && searchQuery == old(searchQuery) && selectedGuest == old(selectedGuest)
    {
      activeTab := tab;
    }

    /** `handleChange` and `handleSelectChange`: field `name` gets `value`. */
    method SetField(name: string, value: string)
      modifies this
      ensures formData == WithField(old(formData), name, value)
      ensures activeTab == old(activeTab) && searchQuery == old(searchQuery) && selectedGuest == old(selectedGuest)
    {
      formData := WithField(formData, name, value);
    }

    /** `handleGuestSelect`: remember the guest, copy it into the four guest
        fields and move on to the booking tab. */
    method SelectGuest(g: Guest)
      modifies this
      ensures selectedGuest == Some(g)
      ensures formData == WithGuest(old(formData), g)
      ensures activeTab == "booking"
      ensures searchQuery == old(searchQuery)
    {
      selectedGuest := Some(g);
      formData := WithGuest(formData, g);
      activeTab := "booking";
    }

    /** "Create Booking": nothing is saved; the page goes to the bookings
        list. */
    method Submit() returns (redirect: string)
      ensures redirect == BookingsPath
    {
      redirect := BookingsPath;
    }
  }
}
