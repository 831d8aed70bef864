/** The booking list component: its five pieces of state, the fetch that fills
    them, the two input handlers, and the choice of what is on screen. */
module BookingListView {
  import opened Wrappers
  import opened Text
  import opened BookingFilter

  /** How the request for the bookings ended. A failure may carry the
      `message` field of the response body; `None` stands for a missing
      response, body or field. */
  datatype FetchResponse = Success(data: seq<Booking>) | Failure(message: Option<string>)

  /** One rendered booking card: its list key and the record its click selects. */
  datatype Row = Row(key: string, booking: Booking)

  /** The four mutually exclusive things the component can show. */
  datatype View = Spinner | ErrorBanner(message: string) | NoBookingsFound | Rows(rows: seq<Row>)

  const FetchFailedMessage: string := "Failed to fetch bookings"

  /** The error text after a failed fetch: the response's message when it is a
      non-empty string, the fixed fallback otherwise (JavaScript's `||` treats
      an empty string like a missing one). Never empty. */
  function FetchErrorMessage(message: Option<string>): (r: string)
    ensures r != ""
    ensures message.Some? && message.value != "" ==> r == message.value
    ensures message.None? || message.value == "" ==> r == FetchFailedMessage
  {
    match message
    case Some(m) => if m != "" then m else FetchFailedMessage
    case None => FetchFailedMessage
  }

  /** One card per booking, keyed by the booking's id. */
  function RowsOf(bookings: seq<Booking>): seq<Row> {
    seq(|bookings|, k requires 0 <= k < |bookings| => Row(bookings[k].id, bookings[k]))
  }

  /** What the component renders, in priority order: loading, then error,
      then the empty placeholder, then the filtered rows. */
  function RenderView(isLoading: bool, error: string, bookings: seq<Booking>,
                      query: string, filterStatus: string): (v: View)
    ensures v.Spinner? <==> isLoading
    ensures v.ErrorBanner? <==> !isLoading && error != ""
    ensures v.ErrorBanner? ==> v.message == error
    ensures v == NoBookingsFound <==>
              !isLoading && error == "" && forall b :: b in bookings ==> !Keep(b, query, filterStatus)
    ensures v.Rows? <==>
              !isLoading && error == "" && exists b :: b in bookings && Keep(b, query, filterStatus)
    ensures v.Rows? ==>
              var shown := FilterBookings(bookings, query, filterStatus);
              && |v.rows| == |shown|
              && forall k :: 0 <= k < |shown| ==> v.rows[k].key == shown[k].id && v.rows[k].booking == shown[k]
  {
    if isLoading then Spinner
    else if error != "" then ErrorBanner(error)
    else
      var shown := FilterBookings(bookings, query, filterStatus);
      if |shown| == 0 then NoBookingsFound
      else
        assert shown[0] in shown;
        Rows(RowsOf(shown))
  }

  /** The component instance and its state hooks. */
  class BookingList {
    var searchQuery: string
    var filterStatus: string
    var bookings: seq<Booking>
    var isLoading: bool
    var error: string

    /** The initial state on mount: empty search, "all" statuses, no bookings,
        loading, no error, so the spinner is shown. */
    constructor ()
      ensures searchQuery == "" && filterStatus == AllStatuses
      ensures bookings == [] && isLoading && error == ""
      ensures Render() == Spinner
    {
      searchQuery := "";
      filterStatus := AllStatuses;
      bookings := [];
      isLoading := true;
      error := "";
    }

    /** What the component shows for its current state: the spinner exactly
        while loading, and otherwise only cards of fetched bookings that pass
        both tests. */
    function Render(): (v: View)
      reads this
      ensures v.Spinner? <==> isLoading
      ensures v.Rows? ==> forall k :: 0 <= k < |v.rows| ==>
                v.rows[k].booking in bookings && Keep(v.rows[k].booking, searchQuery, filterStatus)
    {
      RenderView(isLoading, error, bookings, searchQuery, filterStatus)
    }

    /** The part of `fetchBookings` before the request is awaited: loading on,
        error cleared. */
    method StartFetch()
      modifies this
      ensures isLoading && error == ""
      ensures bookings == old(bookings)
      ensures searchQuery == old(searchQuery) && filterStatus == old(filterStatus)
      ensures Render() == Spinner
    {
      isLoading := true;
      error := "";
    }

    /** The part of `fetchBookings` after the request settles: the data replaces
        the bookings on success, the error text is set on failure, and loading
        is switched off either way. */
    method FinishFetch(response: FetchResponse)
      modifies this
      ensures !isLoading
      ensures searchQuery == old(searchQuery) && filterStatus == old(filterStatus)
      ensures response.Success? ==> bookings == response.data && error == old(error)
      ensures response.Failure? ==> bookings == old(bookings) && error == FetchErrorMessage(response.message)
      ensures response.Failure? ==> Render() == ErrorBanner(error)
    {
      match response {
        case Success(data) =>
          bookings := data;
        case Failure(message) =>
          error := FetchErrorMessage(message);
      }
      isLoading := false;
    }

    /** `fetchBookings` as a whole. Afterwards loading is off; on success the
        bookings are the data and there is no error, so a placeholder or rows
        are shown; on failure the bookings are kept and the banner shows the
        error text. */
    method Fetch(response: FetchResponse)
      modifies this
      ensures !isLoading
      ensures searchQuery == old(searchQuery) && filterStatus == old(filterStatus)
      ensures response.Success? ==> bookings == response.data && error == ""
      ensures response.Success? ==> Render().NoBookingsFound? || Render().Rows?
      ensures response.Failure? ==> bookings == old(bookings) && error == FetchErrorMessage(response.message)
      ensures response.Failure? ==> Render() == ErrorBanner(error)
    {
      StartFetch();
      FinishFetch(response);
    }

    /** The search input's change handler. Only the query changes, so which of
        the four views is on screen changes only between placeholder and rows. */
    method SetSearchQuery(value: string)
      modifies this
      ensures searchQuery == value
      ensures filterStatus == old(filterStatus) && bookings == old(bookings)
      ensures isLoading == old(isLoading) && error == old(error)
      ensures Render().Spinner? == old(Render().Spinner?)
      ensures Render().ErrorBanner? == old(Render().ErrorBanner?)
    {
      searchQuery := value;
    }

    /** The status select's change handler. */
    method SetFilterStatus(value: string)
      modifies this
      ensures filterStatus == value
      ensures searchQuery == old(searchQuery) && bookings == old(bookings)
      ensures isLoading == old(isLoading) && error == old(error)
      ensures Render().Spinner? == old(Render().Spinner?)
      ensures Render().ErrorBanner? == old(Render().ErrorBanner?)
    {
      filterStatus := value;
    }
  }

  /** A mount followed by the one fetch it starts: what is on screen once the
      request has settled. A failure always shows the banner; a success shows
      every fetched booking, in order, or the placeholder when there are none. */
  method Mount(response: FetchResponse) returns (v: View)
    ensures response.Failure? ==> v == ErrorBanner(FetchErrorMessage(response.message))
    ensures response.Success? && response.data == [] ==> v == NoBookingsFound
    ensures response.Success? && response.data != [] ==>
              && v.Rows?
              && |v.rows| == |response.data|
              && forall k :: 0 <= k < |response.data| ==>
                   v.rows[k].key == response.data[k].id && v.rows[k].booking == response.data[k]
  {
    var list := new BookingList();
    list.Fetch(response);
    if response.Success? {
      FilterShowsAllInitially(response.data);
    }
    v := list.Render();
  }

  /** A failed fetch whose response says "Service unavailable" shows exactly
      that text, and no rows. */
  method ServiceUnavailableScenario() returns (v: View)
    ensures v == ErrorBanner("Service unavailable")
  {
    v := Mount(Failure(Some("Service unavailable")));
  }
}
