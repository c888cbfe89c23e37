/** The bookings list: deleting a booking, the status and payment badges
    and their labels, the actions each row offers and the four summary
    cards. */
module BookingsPage {
  import opened Options
  import opened Seqs
  import opened Strings

  datatype Booking = Booking(
    id: string,
    guest: string,
    property: string,
    room: string,
    checkIn: string,
    checkOut: string,
    status: string,
    payment: string)

  const SampleBookings: seq<Booking> := [
    Booking("1", "John Smith", "Grand Hotel", "101", "2025-05-15", "2025-05-18", "confirmed", "paid"),
    Booking("2", "Jane Doe", "Grand Hotel", "201", "2025-05-16", "2025-05-20", "confirmed", "pending"),
    Booking("3", "Robert Johnson", "City Boarding House", "A2", "2025-05-14", "2025-06-14", "checked-in", "paid"),
    Booking("4", "Emily Wilson", "Beach Resort", "105", "2025-05-20", "2025-05-25", "confirmed", "paid"),
    Booking("5", "Michael Brown", "Grand Hotel", "301", "2025-05-18", "2025-05-21", "cancelled", "refunded"),
    Booking("6", "Sarah Davis", "City Boarding House", "B1", "2025-05-15", "2025-05-30", "checked-in", "paid"),
    Booking("7", "David Wilson", "Beach Resort", "106", "2025-05-22", "2025-05-26", "confirmed", "pending"),
    Booking("8", "Jennifer Lee", "Grand Hotel", "202", "2025-05-19", "2025-05-22", "confirmed", "paid"),
    Booking("9", "Thomas Moore", "City Boarding House", "A3", "2025-05-16", "2025-06-16", "checked-in", "paid"),
    Booking("10", "Lisa Johnson", "Beach Resort", "107", "2025-05-25", "2025-05-30", "confirmed", "pending"),
    Booking("11", "James Wilson", "Grand Hotel", "302", "2025-05-17", "2025-05-19", "checked-out", "paid"),
    Booking("12", "Patricia Brown", "City Boarding House", "B2", "2025-05-18", "2025-05-25", "checked-in", "paid")
  ]

  // ---------------------------------------------------------------------
  // Deleting
  // ---------------------------------------------------------------------

  /** The list without the bookings that have id `id`, the others in order. */
  function WithoutId(bookings: seq<Booking>, id: string): (r: seq<Booking>)
    ensures IsSubsequence(r, bookings)
    ensures forall b :: b in r <==> b in bookings && b.id != id
  {
    FilterIsSubsequence(bookings, (b: Booking) => b.id != id);
    Filter(bookings, (b: Booking) => b.id != id)
  }

  /** Deleting an id no booking has changes nothing; deleting twice is
      deleting once; deleting removes exactly the bookings with that id. */
  lemma DeleteProperties(bookings: seq<Booking>, id: string)
    ensures (forall i :: 0 <= i < |bookings| ==> bookings[i].id != id) ==> WithoutId(bookings, id) == bookings
    ensures WithoutId(WithoutId(bookings, id), id) == WithoutId(bookings, id)
    ensures |WithoutId(bookings, id)| + |Filter(bookings, (b: Booking) => b.id == id)| == |bookings|
  {
    if forall i :: 0 <= i < |bookings| ==> bookings[i].id != id {
      FilterKeepsAll(bookings, (b: Booking) => b.id != id);
    }
    var once := WithoutId(bookings, id);
    forall i | 0 <= i < |once| ensures once[i].id != id {
      assert once[i] in once;
    }
    FilterKeepsAll(once, (b: Booking) => b.id != id);
    FilterPartitionLength(bookings, (b: Booking) => b.id != id, (b: Booking) => b.id == id);
  }

  // ---------------------------------------------------------------------
  // Labels and badges
  // ---------------------------------------------------------------------

  /** The status cell's text: split on "-", capitalise each word, join with
      spaces. */
  function StatusLabel(status: string): string {
    Join(Map(Split(status, '-'), Capitalize), " ")
  }

  /** The same text described character by character: each "-" becomes a
      space, the first character and every character after a "-" is
      upper-cased, and the rest are kept. */
  function LabelByChar(s: string): (r: string)
    ensures |r| == |s|
  {
    seq(|s|, i requires 0 <= i < |s| =>
      if s[i] == '-' then ' ' else if i == 0 || s[i - 1] == '-' then UpperChar(s[i]) else s[i])
  }

  /** A status without "-" is one word, capitalised. */
  lemma OneWordLabel(s: string)
    requires IndexOf(s, '-') == |s|
    ensures StatusLabel(s) == Capitalize(s) == LabelByChar(s)
  {
    assert Split(s, '-') == [s];
    assert Map([s], Capitalize) == [Capitalize(s)];
  }

  /** The label of a status is its first word's label, a space, and the
      label of what follows the first "-". */
  lemma LabelOfFirstDash(s: string, i: nat)
    requires i == IndexOf(s, '-') < |s|
    ensures StatusLabel(s) == Capitalize(s[..i]) + " " + StatusLabel(s[i + 1..])
  {
    var t := s[i + 1..];
    var rest := Map(Split(t, '-'), Capitalize);
    assert Split(s, '-') == [s[..i]] + Split(t, '-');
    assert Map(Split(s, '-'), Capitalize) == [Capitalize(s[..i])] + rest;
    assert ([Capitalize(s[..i])] + rest)[1..] == rest;
  }

  /** The character-by-character label splits the same way. */
  lemma LabelByCharAtFirstDash(s: string, i: nat)
    requires i == IndexOf(s, '-') < |s|
    ensures LabelByChar(s) == Capitalize(s[..i]) + " " + LabelByChar(s[i + 1..])
  {
    var t := s[i + 1..];
    forall j | 0 <= j < |s|
      ensures LabelByChar(s)[j] == (Capitalize(s[..i]) + " " + LabelByChar(t))[j]
    {
      if j > i {
        assert s[j] == t[j - i - 1];
        if j - i - 1 > 0 {
          assert s[j - 1] == t[j - i - 2];
        }
      }
    }
  }

  /** The label through split, map and join is the character-by-character
      description. */
  lemma {:induction false} StatusLabelByChar(s: string)
    ensures StatusLabel(s) == LabelByChar(s)
    decreases |s|
  {
    var i := IndexOf(s, '-');
    if i == |s| {
      OneWordLabel(s);
    } else {
      StatusLabelByChar(s[i + 1..]);
      LabelOfFirstDash(s, i);
      LabelByCharAtFirstDash(s, i);
    }
  }

  /** The label keeps the length of the status and has a space wherever
      the status has a "-"; where the status has neither a "-" nor a
      space, the label has no space either. */
  lemma StatusLabelShape(s: string)
    ensures |StatusLabel(s)| == |s|
    ensures forall i :: 0 <= i < |s| && s[i] == '-' ==> StatusLabel(s)[i] == ' '
    ensures forall i :: 0 <= i < |s| && s[i] != '-' && s[i] != ' ' ==> StatusLabel(s)[i] != ' '
  {
    StatusLabelByChar(s);
  }

  /** The statuses the sample data uses, and the labels they read as. */
  const KnownStatuses: seq<string> := ["confirmed", "checked-in", "checked-out", "cancelled"]
  const KnownLabels: seq<string> := ["Confirmed", "Checked In", "Checked Out", "Cancelled"]

  lemma KnownLabelsByChar()
    ensures forall i :: 0 <= i < |KnownStatuses| ==> LabelByChar(KnownStatuses[i]) == KnownLabels[i]
  {
  }

  /** "checked-in" reads "Checked In", and so on for the other three. */
  lemma StatusLabelExamples()
    ensures forall i :: 0 <= i < |KnownStatuses| ==> StatusLabel(KnownStatuses[i]) == KnownLabels[i]
  {
    KnownLabelsByChar();
    forall i | 0 <= i < |KnownStatuses|
      ensures StatusLabel(KnownStatuses[i]) == KnownLabels[i]
    {
      StatusLabelByChar(KnownStatuses[i]);
    }
  }

  datatype BadgeVariant = Default | Outline | Secondary | Destructive

  /** The status badge's style; every status it does not know is shown as
      destructive. */
  function StatusBadge(status: string): (v: BadgeVariant)
    ensures v == Destructive <==> status !in {"confirmed", "checked-in", "checked-out"}
  {
    if status == "confirmed" then Outline
    else if status == "checked-in" then Default
    else if status == "checked-out" then Secondary
    else Destructive
  }

  /** The three known statuses get three different styles. */
  lemma StatusBadgesDiffer()
    ensures StatusBadge("confirmed") != StatusBadge("checked-in")
    ensures StatusBadge("checked-in") != StatusBadge("checked-out")
    ensures StatusBadge("confirmed") != StatusBadge("checked-out")
    ensures StatusBadge("cancelled") == Destructive
  {
  }

  /** The payment badge's style. */
  function PaymentBadge(payment: string): (v: BadgeVariant)
    ensures v != Destructive
    ensures v == Secondary <==> payment != "paid" && payment != "pending"
  {
    if payment == "paid" then Default else if payment == "pending" then Outline else Secondary
  }

  /** The payment cell's text: only its first letter is upper-cased. */
  function PaymentLabel(payment: string): (r: string)
    ensures Lower(r) == Lower(payment)
  {
    CapitalizeKeepsLower(payment);
    Capitalize(payment)
  }

  /** On a value without "-" the payment label and the status label agree;
      on one with a "-" they do not. */
  lemma PaymentLabelVersusStatusLabel(s: string)
    ensures '-' !in s ==> PaymentLabel(s) == StatusLabel(s)
    ensures |s| > 0 && s[0] != '-' && '-' in s ==> PaymentLabel(s) != StatusLabel(s)
  {
    StatusLabelByChar(s);
    if '-' !in s {
      assert LabelByChar(s) == Capitalize(s);
    } else if |s| > 0 && s[0] != '-' {
      var i :| 0 <= i < |s| && s[i] == '-';
      assert i > 0;
      assert PaymentLabel(s)[i] == '-' != StatusLabel(s)[i];
    }
  }

  // ---------------------------------------------------------------------
  // Row actions
  // ---------------------------------------------------------------------

  datatype Action = ViewDetails | EditBooking | ViewInvoice | CheckIn | CheckOut | DeleteBooking

  /** The row menu: check-in for confirmed bookings, check-out for
      checked-in ones, and the four other entries always. */
  function Actions(b: Booking): (r: seq<Action>)
    ensures CheckIn in r <==> b.status == "confirmed"
    ensures CheckOut in r <==> b.status == "checked-in"
    ensures !(CheckIn in r && CheckOut in r)
    ensures ViewDetails in r && EditBooking in r && ViewInvoice in r && DeleteBooking in r
    ensures 4 <= |r| <= 5
  {
    [ViewDetails, EditBooking, ViewInvoice] +
    (if b.status == "confirmed" then [CheckIn] else []) +
    (if b.status == "checked-in" then [CheckOut] else []) +
    [DeleteBooking]
  }

  /** Where an action leads. */
  function ActionPath(b: Booking, a: Action): (path: Option<string>)
    ensures path.None? <==> a == DeleteBooking
  {
    match a
    case ViewDetails => Some("/dashboard/bookings/" + b.id)
    case EditBooking => Some("/dashboard/bookings/" + b.id + "/edit")
    case ViewInvoice => Some("/dashboard/bookings/" + b.id + "/invoice")
    case CheckIn => Some("/dashboard/bookings/" + b.id + "/check-in")
    case CheckOut => Some("/dashboard/bookings/" + b.id + "/check-out")
    case DeleteBooking => None
  }

  // ---------------------------------------------------------------------
  // Summary cards
  // ---------------------------------------------------------------------

  /** The bookings with a given status. */
  function WithStatus(bookings: seq<Booking>, status: string): (r: seq<Booking>)
    ensures IsSubsequence(r, bookings)
    ensures forall b :: b in r <==> b in bookings && b.status == status
  {
    FilterIsSubsequence(bookings, (b: Booking) => b.status == status);
    Filter(bookings, (b: Booking) => b.status == status)
  }

  datatype Cards = Cards(total: nat, upcomingCheckIns: nat, currentStays: nat, upcomingCheckOuts: nat)

  /** The four cards: all bookings, confirmed ones, and checked-in ones
      twice (as "Current Stays" and as "Upcoming Check-outs"). */
  function SummaryCards(bookings: seq<Booking>): (c: Cards)
    ensures c.upcomingCheckOuts == c.currentStays
    ensures c.upcomingCheckIns + c.currentStays <= c.total == |bookings|
  {
    FilterDisjointLength(bookings, (b: Booking) => b.status == "confirmed", (b: Booking) => b.status == "checked-in");
    Cards(|bookings|, |WithStatus(bookings, "confirmed")|, |WithStatus(bookings, "checked-in")|,
          |WithStatus(bookings, "checked-in")|)
  }

  /** The statuses of a list, in order. */
  function Statuses(bookings: seq<Booking>): (r: seq<string>)
    ensures |r| == |bookings| && forall i :: 0 <= i < |bookings| ==> r[i] == bookings[i].status
  {
    seq(|bookings|, i requires 0 <= i < |bookings| => bookings[i].status)
  }

  /** Counting a status in the status list counts the bookings with it. */
  lemma {:induction false} CountStatuses(bookings: seq<Booking>, status: string, i: nat)
    requires i <= |bookings|
    ensures CountFrom(Statuses(bookings), status, i) == |WithStatus(bookings[i..], status)|
    decreases |bookings| - i
  {
    if i < |bookings| {
      CountStatuses(bookings, status, i + 1);
      assert bookings[i..][1..] == bookings[i + 1..];
    }
  }

  const SampleStatuses: seq<string> := [
    "confirmed", "confirmed", "checked-in", "confirmed", "cancelled", "checked-in",
    "confirmed", "confirmed", "checked-in", "confirmed", "checked-out", "checked-in"]

  lemma SampleStatusList()
    ensures Statuses(SampleBookings) == SampleStatuses
  {
  }

  lemma SampleStatusCounts()
    ensures CountFrom(SampleStatuses, "confirmed", 0) == 6
    ensures CountFrom(SampleStatuses, "checked-in", 0) == 4
  {
  }

  /** Any list with the sample's statuses shows 12, 6, 4 and 4. */
  lemma CardsOfSampleShape(bookings: seq<Booking>)
    requires Statuses(bookings) == SampleStatuses
    ensures SummaryCards(bookings) == Cards(12, 6, 4, 4)
  {
    SampleStatusCounts();
    CountStatuses(bookings, "confirmed", 0);
    CountStatuses(bookings, "checked-in", 0);
    assert bookings[0..] == bookings;
  }

  /** The sample list shows 12 bookings, 6 upcoming check-ins, 4 current
      stays and 4 upcoming check-outs. */
  lemma SampleCards()
    ensures SummaryCards(SampleBookings) == Cards(12, 6, 4, 4)
  {
    SampleStatusList();
    CardsOfSampleShape(SampleBookings);
  }

  // ---------------------------------------------------------------------
  // The page
  // ---------------------------------------------------------------------

  class BookingsPage {
    var bookings: seq<Booking>

    constructor()
      ensures bookings == SampleBookings
    {
      bookings := SampleBookings;
    }

    /** The confirmed "Delete" of a row's dialog. */
    method Delete(id: string)
      modifies this
      ensures bookings == WithoutId(old(bookings), id)
    {
      bookings := WithoutId(bookings, id);
    }
  }

  /** Deleting never raises a card. */
  lemma DeleteLowersCards(bookings: seq<Booking>, id: string)
    ensures SummaryCards(WithoutId(bookings, id)).total <= SummaryCards(bookings).total
    ensures SummaryCards(WithoutId(bookings, id)).upcomingCheckIns <= SummaryCards(bookings).upcomingCheckIns
    ensures SummaryCards(WithoutId(bookings, id)).currentStays <= SummaryCards(bookings).currentStays
  {
    var after := WithoutId(bookings, id);
    SubsequenceContained(after, bookings);
    FilterOfSubsequence(after, bookings, (b: Booking) => b.status == "confirmed");
    SubsequenceContained(WithStatus(after, "confirmed"), WithStatus(bookings, "confirmed"));
    FilterOfSubsequence(after, bookings, (b: Booking) => b.status == "checked-in");
    SubsequenceContained(WithStatus(after, "checked-in"), WithStatus(bookings, "checked-in"));
  }

  /** Deleting an id none of whose bookings is confirmed or checked in
      leaves the three status cards as they were. */
  lemma DeleteKeepsStatusCards(bookings: seq<Booking>, id: string)
    requires forall b :: b in bookings && b.id == id ==> b.status != "confirmed" && b.status != "checked-in"
    ensures SummaryCards(WithoutId(bookings, id)).upcomingCheckIns == SummaryCards(bookings).upcomingCheckIns
    ensures SummaryCards(WithoutId(bookings, id)).currentStays == SummaryCards(bookings).currentStays
    ensures SummaryCards(WithoutId(bookings, id)).upcomingCheckOuts == SummaryCards(bookings).upcomingCheckOuts
  {
    DeleteKeepsStatus(bookings, id, "confirmed");
    DeleteKeepsStatus(bookings, id, "checked-in");
  }

  /** Deleting an id none of whose bookings has `status` keeps the bookings
      with that status. */
  lemma DeleteKeepsStatus(bookings: seq<Booking>, id: string, status: string)
    requires forall b :: b in bookings && b.id == id ==> b.status != status
    ensures WithStatus(WithoutId(bookings, id), status) == WithStatus(bookings, status)
  {
    var keep := (b: Booking) => b.id != id;
    var has := (b: Booking) => b.status == status;
    FilterCommute(bookings, keep, has);
    var w := Filter(bookings, has);
    forall i | 0 <= i < |w| ensures keep(w[i]) {
      assert w[i] in w;
    }
    FilterKeepsAll(w, keep);
  }
}
