/** Worked examples: a booking numbered "BK-2024-001" with status "pending"
    beside one numbered "BK-2024-002" with status "confirmed", searched and
    filtered by status. */
module BookingScenarios {
  import opened Text
  import opened Selection
  import opened BookingFilter
  import opened BookingListView

  /** The query holds no letter, so lower-casing leaves it as it is. */
  lemma LowerQuery() ensures Lower("2024-001") == "2024-001" {}

  /** "BK-2024-001", lower-cased, ends with the query. */
  lemma FirstNumberIncludesQuery()
    ensures Includes(Lower("BK-2024-001"), "2024-001")
  {
    assert "BK-2024-001" == "BK-" + "2024-001";
    LowerAppend("BK-", "2024-001");
    LowerQuery();
    IncludesAtEnd(Lower("BK-"), "2024-001");
  }

  /** A text without the digit 1 does not include "2024-001", in any case. */
  lemma NoDigitOneExcludesQuery(s: string)
    requires '1' !in s
    ensures !Includes(Lower(s), "2024-001")
  {
    LowerKeepsNonLetter(s, '1');
    MissingCharExcludes(Lower(s), "2024-001", '1');
  }

  /** The search "2024-001" matches the booking number "BK-2024-001". */
  lemma FirstMatchesSearch(b: Booking)
    requires b.bookingNumber == "BK-2024-001"
    ensures MatchesSearch(b, "2024-001")
  {
    LowerQuery();
    FirstNumberIncludesQuery();
  }

  /** The search "2024-001" misses a booking numbered "BK-2024-002" whose
      customer name and vehicle number hold no digit 1. */
  lemma SecondMissesSearch(b: Booking)
    requires b.bookingNumber == "BK-2024-002"
    requires '1' !in b.customer.name && '1' !in b.vehicle.number
    ensures !MatchesSearch(b, "2024-001")
  {
    LowerQuery();
    NoDigitOneExcludesQuery(b.bookingNumber);
    NoDigitOneExcludesQuery(b.customer.name);
    NoDigitOneExcludesQuery(b.vehicle.number);
  }

  /** The search "2024-001" shows only the first booking. */
  lemma SearchScenario(first: Booking, second: Booking)
    requires first.bookingNumber == "BK-2024-001" && second.bookingNumber == "BK-2024-002"
    requires '1' !in second.customer.name && '1' !in second.vehicle.number
    ensures FilterBookings([first, second], "2024-001", AllStatuses) == [first]
  {
    FirstMatchesSearch(first);
    SecondMissesSearch(second);
    SelectPair(first, second, KeepIn("2024-001", AllStatuses));
  }

  lemma SampleStatusesDiffer(pending: Booking, confirmed: Booking)
    requires pending.status == "pending" && confirmed.status == "confirmed"
    ensures Lower(pending.status) != Lower("confirmed")
    ensures Lower(pending.status) != Lower("rejected")
    ensures Lower(confirmed.status) != Lower("rejected")
  {
  }

  /** The status "confirmed" shows only the confirmed booking; the status
      "rejected" shows nothing, which puts the placeholder on screen. */
  lemma StatusScenario(pending: Booking, confirmed: Booking)
    requires pending.status == "pending" && confirmed.status == "confirmed"
    ensures FilterBookings([pending, confirmed], "", "confirmed") == [confirmed]
    ensures FilterBookings([pending, confirmed], "", "rejected") == []
    ensures RenderView(false, "", [pending, confirmed], "", "rejected") == NoBookingsFound
  {
    EmptySearchMatches(pending);
    EmptySearchMatches(confirmed);
    SampleStatusesDiffer(pending, confirmed);
    SelectPair(pending, confirmed, KeepIn("", "confirmed"));
    SelectPair(pending, confirmed, KeepIn("", "rejected"));
  }
}
