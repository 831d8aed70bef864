/** The booking list's client-side filter: a booking is shown when the search
    text occurs, ignoring case, in its booking number, its customer's name or
    its vehicle's number, and its status matches the selected status filter. */
module BookingFilter {
  import opened Text
  import opened Selection

  datatype Customer = Customer(name: string)
  datatype Vehicle = Vehicle(number: string)

  /** One booking record as the service returns it; `id` is its `_id`. */
  datatype Booking = Booking(
    id: string,
    bookingNumber: string,
    customer: Customer,
    vehicle: Vehicle,
    status: string)

  /** The status filter value that switches the status test off. */
  const AllStatuses: string := "all"

  /** The search test: the lower-cased query is a substring of one of the three
      lower-cased search fields. */
  predicate MatchesSearch(b: Booking, query: string)
    ensures MatchesSearch(b, query) <==>
      || Occurs(Lower(b.bookingNumber), Lower(query))
      || Occurs(Lower(b.customer.name), Lower(query))
      || Occurs(Lower(b.vehicle.number), Lower(query))
  {
    var q := Lower(query);
    IncludesIffOccurs(Lower(b.bookingNumber), q);
    IncludesIffOccurs(Lower(b.customer.name), q);
    IncludesIffOccurs(Lower(b.vehicle.number), q);
    || Includes(Lower(b.bookingNumber), q)
    || Includes(Lower(b.customer.name), q)
    || Includes(Lower(b.vehicle.number), q)
  }

  /** The status test: the filter is exactly "all" (case matters here), or the
      two statuses agree once lower-cased. */
  predicate MatchesStatus(b: Booking, filterStatus: string)
    ensures filterStatus == AllStatuses ==> MatchesStatus(b, filterStatus)
    ensures filterStatus != AllStatuses ==>
      (MatchesStatus(b, filterStatus) <==>
         && |b.status| == |filterStatus|
         && forall i :: 0 <= i < |b.status| ==> LowerChar(b.status[i]) == LowerChar(filterStatus[i]))
  {
    filterStatus == AllStatuses || Lower(b.status) == Lower(filterStatus)
  }

  /** Whether a booking is shown for the given search text and status filter. */
  predicate Keep(b: Booking, query: string, filterStatus: string)
    ensures filterStatus == AllStatuses ==> (Keep(b, query, filterStatus) <==> MatchesSearch(b, query))
    ensures query == "" ==> (Keep(b, query, filterStatus) <==> MatchesStatus(b, filterStatus))
  {
    MatchesSearch(b, query) && MatchesStatus(b, filterStatus)
  }

  /** The callback handed to `filter`, as one function value. */
  function KeepIn(query: string, filterStatus: string): Booking -> bool {
    b => Keep(b, query, filterStatus)
  }

  function SearchIn(query: string): Booking -> bool {
    b => MatchesSearch(b, query)
  }

  /** `filteredBookings`: the bookings that pass both tests, in list order. */
  function FilterBookings(bookings: seq<Booking>, query: string, filterStatus: string): (r: seq<Booking>)
    ensures |r| <= |bookings|
    ensures forall b :: b in r <==> b in bookings && Keep(b, query, filterStatus)
  {
    Select(bookings, KeepIn(query, filterStatus))
  }

  /** The filtered list is a subsequence of the bookings: it consists of the
      bookings at strictly increasing positions, and those positions are
      exactly the ones whose booking passes both tests. */
  lemma FilterIsOrderedSelection(bookings: seq<Booking>, query: string, filterStatus: string)
    ensures exists idx ::
      && IsOrderedSelection(FilterBookings(bookings, query, filterStatus), bookings, idx)
      && forall j :: 0 <= j < |bookings| ==> (j in idx <==> Keep(bookings[j], query, filterStatus))
  {
    var keep := KeepIn(query, filterStatus);
    SelectIsOrderedSelection(bookings, keep);
    var idx :| IsOrderedSelection(Select(bookings, keep), bookings, idx)
            && forall j :: 0 <= j < |bookings| ==> (j in idx <==> keep(bookings[j]));
    assert forall j :: 0 <= j < |bookings| ==> (j in idx <==> Keep(bookings[j], query, filterStatus));
    assert IsOrderedSelection(FilterBookings(bookings, query, filterStatus), bookings, idx);
  }

  /** No booking is duplicated or invented: a booking that passes appears as
      often as in the input, any other not at all. */
  lemma FilterMultiplicity(bookings: seq<Booking>, query: string, filterStatus: string, b: Booking)
    ensures multiset(FilterBookings(bookings, query, filterStatus))[b]
         == if Keep(b, query, filterStatus) then multiset(bookings)[b] else 0
  {
    SelectMultiplicity(bookings, KeepIn(query, filterStatus), b);
  }

  /** Filtering the filtered list again with the same query and status returns it unchanged. */
  lemma FilterIdempotent(bookings: seq<Booking>, query: string, filterStatus: string)
    ensures var r := FilterBookings(bookings, query, filterStatus);
            FilterBookings(r, query, filterStatus) == r
  {
    SelectIdempotent(bookings, KeepIn(query, filterStatus));
  }

  /** The empty search text matches every booking. */
  lemma EmptySearchMatches(b: Booking)
    ensures MatchesSearch(b, "")
  {
  }

  /** With no search text and the "all" status, every booking is shown, in order. */
  lemma FilterShowsAllInitially(bookings: seq<Booking>)
    ensures FilterBookings(bookings, "", AllStatuses) == bookings
  {
    forall j | 0 <= j < |bookings|
      ensures KeepIn("", AllStatuses)(bookings[j])
    {
      EmptySearchMatches(bookings[j]);
    }
    SelectAll(bookings, KeepIn("", AllStatuses));
  }

  /** With the "all" status the status test is a no-op: the result is the
      search filter alone. */
  lemma AllStatusIsSearchOnly(bookings: seq<Booking>, query: string)
    ensures FilterBookings(bookings, query, AllStatuses) == Select(bookings, SearchIn(query))
  {
  }

  /** Two queries that agree once lower-cased select the same bookings. */
  lemma SearchIgnoresCase(bookings: seq<Booking>, query1: string, query2: string, filterStatus: string)
    requires Lower(query1) == Lower(query2)
    ensures FilterBookings(bookings, query1, filterStatus) == FilterBookings(bookings, query2, filterStatus)
  {
    SelectCongruent(bookings, KeepIn(query1, filterStatus), KeepIn(query2, filterStatus));
  }

  /** Typing the query in capitals shows the same bookings. */
  lemma UpperCaseQuerySelectsSame(bookings: seq<Booking>, query: string, filterStatus: string)
    ensures FilterBookings(bookings, Upper(query), filterStatus) == FilterBookings(bookings, query, filterStatus)
  {
    LowerOfUpper(query);
    SearchIgnoresCase(bookings, Upper(query), query, filterStatus);
  }

  /** Two status filters other than "all" that agree once lower-cased select
      the same bookings. */
  lemma StatusIgnoresCase(bookings: seq<Booking>, query: string, status1: string, status2: string)
    requires status1 != AllStatuses && status2 != AllStatuses
    requires Lower(status1) == Lower(status2)
    ensures FilterBookings(bookings, query, status1) == FilterBookings(bookings, query, status2)
  {
    SelectCongruent(bookings, KeepIn(query, status1), KeepIn(query, status2));
  }

  /** The "all" check is an exact comparison: "ALL" is an ordinary status, so a
      booking that "all" shows is hidden by "ALL" unless its own status is "all"
      in some case. */
  lemma AllCheckIsCaseSensitive(bookings: seq<Booking>, query: string, b: Booking)
    requires b in bookings && MatchesSearch(b, query)
    requires Lower(b.status) != AllStatuses
    ensures b in FilterBookings(bookings, query, AllStatuses)
    ensures b !in FilterBookings(bookings, query, "ALL")
  {
  }
}
