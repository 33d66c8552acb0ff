/** The listing-time and expiration-time policy applied when a sell order or
    an offer is built. Times are Unix epoch seconds; the clock reading is the
    parameter `nowMs`, in milliseconds, as the source's `Date` gives it. */
module OrderTiming {
  import opened Outcomes

  /** A date field of the order form: missing, the empty string, or a date
      given to the second. */
  datatype DateField = Undefined | Empty | At(seconds: int)

  const TEN_MINUTES: int := 600
  const SEVEN_DAYS: int := 7 * 24 * 60 * 60

  /** `moment().unix()`: the clock reading floored to whole seconds. */
  function UnixNow(nowMs: int): (s: int)
    ensures s * 1000 <= nowMs < s * 1000 + 1000
  {
    nowMs / 1000
  }

  /** The form gave a date: truthy for the listing time, and neither `''`
      nor `undefined` for the expiration time; both tests agree. */
  predicate Given(d: DateField) {
    d.At?
  }

  /** Listing time: unset stays unset, a date strictly in the future is kept,
      a date now or in the past becomes ten minutes from now. */
  function ListingTime(listing: DateField, nowMs: int): (r: Option<int>)
    ensures r.None? <==> !Given(listing)
    ensures r.Some? ==> r.value * 1000 > nowMs
    ensures Given(listing) && listing.seconds * 1000 > nowMs ==> r == Some(listing.seconds)
    ensures Given(listing) && listing.seconds * 1000 <= nowMs ==> r == Some(UnixNow(nowMs) + TEN_MINUTES)
  {
    match listing
    case At(t) => if t * 1000 > nowMs then Some(t) else Some(UnixNow(nowMs) + TEN_MINUTES)
    case _ => None
  }

  /** Expiration time: a given date is used as it is, whatever the clock says;
      otherwise seven days from now. */
  function ExpirationTime(expiration: DateField, nowMs: int): (r: int)
    ensures Given(expiration) ==> r == expiration.seconds
    ensures !Given(expiration) ==> r == UnixNow(nowMs) + SEVEN_DAYS
  {
    if Given(expiration) then expiration.seconds else UnixNow(nowMs) + SEVEN_DAYS
  }

  /** The expiration an offer gets: always seven days from now, the same as a
      sell order whose form leaves the expiration empty. */
  function OfferExpirationTime(nowMs: int): (r: int)
    ensures r == ExpirationTime(Undefined, nowMs) && r == ExpirationTime(Empty, nowMs)
    ensures nowMs + SEVEN_DAYS * 1000 - 1000 < r * 1000 <= nowMs + SEVEN_DAYS * 1000
  {
    UnixNow(nowMs) + SEVEN_DAYS
  }

  /** A listing time the policy produced passes through the policy unchanged
      at the same clock reading. */
  lemma ListingTimeSettles(listing: DateField, nowMs: int)
    requires Given(listing)
    ensures ListingTime(At(ListingTime(listing, nowMs).value), nowMs) == ListingTime(listing, nowMs)
  {
  }

  /** A replaced listing time lies within the second before "now plus ten
      minutes": the clock is floored to whole seconds before adding. */
  lemma ReplacedListingWindow(listing: DateField, nowMs: int)
    requires Given(listing) && listing.seconds * 1000 <= nowMs
    ensures nowMs + TEN_MINUTES * 1000 - 1000 < ListingTime(listing, nowMs).value * 1000 <= nowMs + TEN_MINUTES * 1000
  {
  }
}
