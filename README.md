# Booking list: client-side filter and view state

This project models the booking list component of the bus-operator admin
dashboard (`src/components/bookings/BookingList.jsx`). The component fetches
the booking records once when it mounts. The operator can then narrow the
list with a search box and a status selector. The component shows a spinner,
an error banner, a "No bookings found." placeholder, or one card per booking.

The model has five modules:

- `Text` (`text.dfy`): `toLowerCase` on ASCII letters (`Lower`) and
  `String.prototype.includes` (`Includes`). It proves that `Includes` finds
  exactly the substrings, that lowering is idempotent, and that upper-casing
  a text first does not change its lowered form.
- `Selection` (`selection.dfy`): `Array.prototype.filter` on a sequence
  (`Select`). It proves the result is the input restricted to exactly the
  passing positions, in increasing order, with each passing element kept as
  often as it occurs. It also proves idempotence, identity and congruence.
- `BookingFilter` (`booking_filter.dfy`): the booking record, the search
  test, the status test and `filteredBookings` (`FilterBookings`), with its
  laws.
- `BookingListView` (`booking_list.dfy`): the fetch outcome, the four
  views, the render priority (`RenderView`), and the class `BookingList`.
  The class holds the component's five state fields (`searchQuery`,
  `filterStatus`, `bookings`, `isLoading`, `error`). Its methods are the
  fetch and the two input handlers.
- `BookingScenarios` (`booking_scenarios.dfy`): worked examples. One booking
  is numbered "BK-2024-001" with status "pending"; the other is numbered
  "BK-2024-002" with status "confirmed".

Three details of the code are easy to misread, and the model follows the
code in each:

- The "all" status disables the status test, and status matching ignores
  case. But the "all" check is an exact,
  case-sensitive comparison; only the comparison with the record's status is
  case-folded. So "ALL" is an ordinary status value, and `AllCheckIsCaseSensitive`
  states what it does.
- There is no separate test for an empty search text. The empty query matches only because `"".includes` holds
  for every text (`IncludesEmpty`, `EmptySearchMatches`).
- The error text uses `message || "Failed to fetch bookings"`. An empty
  message is falsy, so it also gives the fallback. `FetchErrorMessage`
  models this.

## Model

| member | source | states |
|---|---|---|
| `Text.Lower` | src/components/bookings/BookingList.jsx:47-53 | lowering keeps the length, lowers each ASCII letter one by one, and leaves no upper-case letter |
| `Text.LowerIdempotent` | src/components/bookings/BookingList.jsx:47-53 | lowering an already lowered text changes nothing |
| `Text.LowerOfUpper` | src/components/bookings/BookingList.jsx:47-49 | a text typed in capitals has the same lowered form as the original |
| `Text.Includes` | src/components/bookings/BookingList.jsx:47-49 | the empty needle is always included and a needle longer than the text never is; `IncludesIffOccurs` characterises it fully |
| `Text.IncludesIffOccurs` | src/components/bookings/BookingList.jsx:47-49 | `includes` holds exactly when the needle occurs at some offset of the text (both directions) |
| `Text.IncludesEmpty` | src/components/bookings/BookingList.jsx:47-49 | every text includes the empty query |
| `Selection.Select` | src/components/bookings/BookingList.jsx:45 | the filtered sequence is no longer than the input; every kept element is in the input and passes; every passing input element is kept |
| `Selection.KeptIndices` | src/components/bookings/BookingList.jsx:45 | the positions of the passing elements, strictly increasing, each in range and passing, none missing |
| `Selection.SelectIsOrderedSelection` | src/components/bookings/BookingList.jsx:45 | the result is the input at strictly increasing positions, and those are exactly the positions whose element passes |
| `Selection.SelectMultiplicity` | src/components/bookings/BookingList.jsx:45 | a passing element occurs in the result as often as in the input; a failing one never occurs |
| `Selection.SelectIdempotent` | src/components/bookings/BookingList.jsx:45 | filtering twice with the same test equals filtering once |
| `Selection.SelectAll` | src/components/bookings/BookingList.jsx:45 | when every element passes, the result is the input unchanged |
| `Selection.SelectCongruent` | src/components/bookings/BookingList.jsx:45 | two tests that agree on every element give the same result |
| `BookingFilter.MatchesSearch` | src/components/bookings/BookingList.jsx:46-49 | the search test holds iff the lowered query occurs at some offset of the lowered booking number, customer name or vehicle number |
| `BookingFilter.MatchesStatus` | src/components/bookings/BookingList.jsx:51-53 | the exact filter "all" always passes; any other filter passes iff it has the status's length and agrees with it letter by letter ignoring ASCII case |
| `BookingFilter.Keep` | src/components/bookings/BookingList.jsx:45-56 | the callback's result: under "all" it is the search test alone, and with the empty query it is the status test alone |
| `BookingFilter.EmptySearchMatches` | src/components/bookings/BookingList.jsx:46-49 | the empty search text matches every booking |
| `BookingFilter.FilterBookings` | src/components/bookings/BookingList.jsx:45-56 | a booking is in the filtered list iff it is in the list and passes both the search and the status test; the result is never longer |
| `BookingFilter.FilterIsOrderedSelection` | src/components/bookings/BookingList.jsx:45-56 | the filtered list is a subsequence in the original order, and its positions are exactly those of bookings that pass both tests |
| `BookingFilter.FilterMultiplicity` | src/components/bookings/BookingList.jsx:45-56 | no booking is duplicated or invented: a passing booking keeps its count, any other has count zero |
| `BookingFilter.FilterIdempotent` | src/components/bookings/BookingList.jsx:45-56 | filtering the filtered list with the same query and status returns it unchanged |
| `BookingFilter.FilterShowsAllInitially` | src/components/bookings/BookingList.jsx:45-56 | with the empty query and the "all" status, the filtered list equals the input exactly |
| `BookingFilter.AllStatusIsSearchOnly` | src/components/bookings/BookingList.jsx:51-53 | with the "all" status the result equals filtering by the search test alone |
| `BookingFilter.SearchIgnoresCase` | src/components/bookings/BookingList.jsx:46-49 | two queries with the same lowered form give the same result |
| `BookingFilter.UpperCaseQuerySelectsSame` | src/components/bookings/BookingList.jsx:46-49 | the upper-cased query gives the same result as the query |
| `BookingFilter.StatusIgnoresCase` | src/components/bookings/BookingList.jsx:51-53 | two status filters other than "all" with the same lowered form give the same result |
| `BookingFilter.AllCheckIsCaseSensitive` | src/components/bookings/BookingList.jsx:51-53 | the "all" check is exact: a searched booking whose status does not lower to "all" is shown under "all" but hidden under "ALL" |
| `BookingListView.FetchErrorMessage` | src/components/bookings/BookingList.jsx:36 | the error text is never empty; it is the response message when that is a non-empty string, and "Failed to fetch bookings" otherwise |
| `BookingListView.RenderView` | src/components/bookings/BookingList.jsx:58-123 | the spinner is shown iff loading, whatever the error holds; the banner iff not loading and the error is non-empty, showing exactly the error; the placeholder iff neither and no booking passes both tests; rows iff neither and some booking passes, one per filtered booking in filtered order, keyed by its id and selecting its own record |
| `BookingListView.BookingList.Render` | src/components/bookings/BookingList.jsx:58-123 | the view of the current state: the spinner exactly while loading, and every card holds a fetched booking that passes both tests for the current query and status |
| `BookingListView.BookingList.constructor` | src/components/bookings/BookingList.jsx:18-22 | initial state: empty query, "all" status, no bookings, loading, no error, so the spinner is shown |
| `BookingListView.BookingList.StartFetch` | src/components/bookings/BookingList.jsx:30-31 | loading is switched on and the error cleared; nothing else changes; the spinner is shown |
| `BookingListView.BookingList.FinishFetch` | src/components/bookings/BookingList.jsx:32-39 | loading is off; on success the bookings are the data and the error is untouched; on failure the bookings are kept, the error is the message or the fallback, and the banner is shown |
| `BookingListView.BookingList.Fetch` | src/components/bookings/BookingList.jsx:29-40 | after the whole fetch: loading is off; success sets the bookings to the data with an empty error and shows the placeholder or rows; failure keeps the bookings and shows the banner with the error text |
| `BookingListView.BookingList.SetSearchQuery` | src/components/bookings/BookingList.jsx:86 | only the query changes; whether the spinner or the banner is shown does not change |
| `BookingListView.BookingList.SetFilterStatus` | src/components/bookings/BookingList.jsx:94 | only the status filter changes; whether the spinner or the banner is shown does not change |
| `BookingListView.Mount` | src/components/bookings/BookingList.jsx:28-43 | after mount and its one fetch: a failure shows the banner with the error text; a success shows the placeholder for no data, and otherwise one row per fetched booking, in order, keyed by its id |
| `BookingListView.ServiceUnavailableScenario` | src/components/bookings/BookingList.jsx:35-36 | a failure whose message is "Service unavailable" shows a banner with exactly that text |
| `BookingScenarios.SearchScenario` | src/components/bookings/BookingList.jsx:45-56 | the search "2024-001" keeps "BK-2024-001" and drops "BK-2024-002" |
| `BookingScenarios.StatusScenario` | src/components/bookings/BookingList.jsx:51-53 | status "confirmed" keeps only the confirmed booking; status "rejected" keeps none, and the placeholder is shown |

## Left out

- The HTTP GET and the base address: the `VITE_BACKEND_URL` value and its fallback address (lines 24-26, 33). These are network I/O and environment settings. The response is a parameter, `FetchResponse`: either `Success` with the data, or `Failure` with an optional message.
- A success body that is not an array of well-formed bookings, and a `message` that is not a string. The model assumes the shape of the record.
- React's scheduling. This covers the effect's mount-only dependency list, batching of setter calls, and a request that settles after unmount. `Mount` runs the fetch exactly once, in sequence.
- Full Unicode `toLowerCase`. `Lower` changes only the ASCII letters A-Z.
- The markup, styling, icons, `disabled` flags, the option list of the status selector, and the inert "More Filters" button. These are presentation only. The status filter accepts any text, not just the selector's five options.
- The child components `Card`, `Input`, `Button` and `BookingCard`, and what `onSelectBooking` does. Their source is not part of this model. A `Row` records only its key and the record its click passes upward.
- The commented-out drafts after line 130. One is a copy of the live code. The other is a mock-data version whose status comparison is case-sensitive. Neither is live.
