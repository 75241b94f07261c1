/** What the product sources share when they turn one search result into a
    `Product`: reading a JSON field with a default and converting it, the
    price test, the manufacturer guess and the one-retailer offer. */
module Candidates {
  import opened Wrappers
  import opened Strings
  import opened Dicts
  import opened Requirements
  import opened Products

  /** A value read with `item.get(key, default)` and passed to `float()` or
      `int()`: absent, present and convertible, or present and refused by
      the conversion (which raises `ValueError`). */
  datatype Field<T> = Missing | Given(value: T) | Unconvertible
  {
    /** The converted value, the default for a missing key, `None` when the
        conversion raises. */
    function Convert(default: T): (r: Option<T>)
      ensures r.None? <==> Unconvertible?
      ensures Missing? ==> r == Some(default)
      ensures Given? ==> r == Some(value)
    {
      match this
      case Missing => Some(default)
      case Given(v) => Some(v)
      case Unconvertible => None
    }
  }

  /** The price test of the search-engine sources: a positive price that
      does not exceed the budget's effective maximum. */
  predicate PriceAccepted(price: real, r: UserRequirements) {
    price > 0.0 && (r.budget.None? || price <= r.budget.value.EffectiveMax())
  }

  /** `name.split()[0] if name else "Unknown"`: `None` where `split()[0]`
      raises, which is for a name made only of whitespace. */
  function Manufacturer(name: string): (m: Option<string>)
    ensures m.None? <==> name != [] && IsBlank(name)
    ensures name == [] ==> m == Some("Unknown")
    ensures name != [] && m.Some? ==> m.value != [] && NoSpace(m.value)
  {
    FirstWordExists(name);
    if name == [] then Some("Unknown") else FirstWord(name)
  }

  /** The manufacturer of a name that is not blank is its first word. */
  lemma ManufacturerIsFirstWord(name: string)
    requires !IsBlank(name)
    ensures Manufacturer(name).Some?
    ensures var m := Manufacturer(name).value; var i := LeadingSpaces(name);
      i + |m| <= |name| && name[i..i + |m|] == m && (i + |m| == |name| || IsSpace(name[i + |m|]))
  {
    FirstWordExists(name);
    FirstWordShape(name);
  }

  /** `{retailer: PriceInfo(current_price=price, in_stock=..., url=...)}` */
  function SingleOffer(retailer: string, price: real, inStock: bool, url: string): (d: Pricing)
    ensures |d| == 1 && d[0].0 == retailer && UniqueKeys(d)
    ensures d[0].1.currentPrice == price && d[0].1.inStock == inStock && d[0].1.url == url
    ensures d[0].1.TotalPrice() == price
  {
    [(retailer, PriceInfo(price, None, None, inStock, url, None))]
  }

  /** `{retailer: ReviewSummary(average_rating=..., total_reviews=...)}`,
      refused when the rating fails its validator. */
  function SingleReview(retailer: string, rating: real, count: int): (r: Option<Reviews>)
    ensures r.Some? <==> 0.0 <= rating <= 5.0
    ensures r.Some? ==> |r.value| == 1 && r.value[0].0 == retailer && UniqueKeys(r.value)
    ensures r.Some? ==> r.value[0].1.Valid() && r.value[0].1.averageRating == rating && r.value[0].1.totalReviews == count
  {
    match MakeReviewSummary(rating, count)
    case Ok(summary) => Some([(retailer, summary)])
    case Err(_) => None
  }

  /** A product built from one offer and one review summary for the same
      retailer passes every validator when its price is not negative. */
  lemma SingleRetailerValid(p: Product, retailer: string, price: real, inStock: bool, url: string, rating: real, count: int)
    requires price >= 0.0 && SingleReview(retailer, rating, count).Some?
    requires p.pricing == SingleOffer(retailer, price, inStock, url)
    requires p.reviews == SingleReview(retailer, rating, count).value
    ensures p.Valid()
  {
  }

  /** A product as the search sources build it: valid, with one offer and
      one review summary from the same retailer. */
  predicate SingleRetailer(p: Product) {
    p.Valid() && |p.pricing| == 1 && |p.reviews| == 1 && p.pricing[0].0 == p.reviews[0].0
  }

  /** A single-retailer product whose price passes the price test. */
  predicate AcceptedOffer(p: Product, r: UserRequirements) {
    SingleRetailer(p) && PriceAccepted(p.pricing[0].1.currentPrice, r)
  }
}
