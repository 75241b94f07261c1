/** Product records and their aggregates (models/product.py): the price and
    review validators, the best in-stock price, the average rating, the
    total review count, the price range, availability and retailer links. */
module Products {
  import opened Wrappers
  import opened Dicts
  import opened Requirements

  /** `PriceInfo`; the `last_updated` time stamp is not modelled. */
  datatype PriceInfo = PriceInfo(
    currentPrice: real,
    originalPrice: Option<real>,
    discountPercent: Option<real>,
    inStock: bool,
    url: string,
    shippingCost: Option<real>)
  {
    /** What the `current_price` validator lets through. */
    predicate Valid() { currentPrice >= 0.0 }

    /** `get_total_price`: a missing shipping cost counts as zero. */
    function TotalPrice(): real {
      currentPrice + shippingCost.GetOr(0.0)
    }
  }

  /** Constructing a `PriceInfo`: a negative price is rejected. */
  function MakePriceInfo(currentPrice: real, originalPrice: Option<real>, discountPercent: Option<real>,
                         inStock: bool, url: string, shippingCost: Option<real>): (r: Result<PriceInfo, string>)
    ensures r.Ok? <==> currentPrice >= 0.0
    ensures r.Ok? ==> r.value.Valid() && r.value == PriceInfo(currentPrice, originalPrice, discountPercent, inStock, url, shippingCost)
  {
    if currentPrice < 0.0 then Err("Price cannot be negative")
    else Ok(PriceInfo(currentPrice, originalPrice, discountPercent, inStock, url, shippingCost))
  }

  /** A price with no shipping cost (or a zero one) totals to the price itself. */
  lemma TotalPriceNoShipping(p: PriceInfo)
    requires p.shippingCost.None? || p.shippingCost.value == 0.0
    ensures p.TotalPrice() == p.currentPrice
  {
  }

  /** `ReviewSummary` */
  datatype ReviewSummary = ReviewSummary(
    averageRating: real,
    totalReviews: int,
    ratingDistribution: Dict<string, int>,
    commonPros: seq<string>,
    commonCons: seq<string>,
    recentReviewsSample: seq<string>)
  {
    /** What the `average_rating` validator lets through. */
    predicate Valid() { 0.0 <= averageRating <= 5.0 }
  }

  /** Constructing a `ReviewSummary`: a rating outside [0, 5] is rejected. */
  function MakeReviewSummary(averageRating: real, totalReviews: int): (r: Result<ReviewSummary, string>)
    ensures r.Ok? <==> 0.0 <= averageRating <= 5.0
    ensures r.Ok? ==> r.value.Valid() && r.value.averageRating == averageRating && r.value.totalReviews == totalReviews
  {
    if averageRating < 0.0 || averageRating > 5.0 then Err("Rating must be between 0 and 5")
    else Ok(ReviewSummary(averageRating, totalReviews, [], [], [], []))
  }

  type Pricing = Dict<string, PriceInfo>
  type Reviews = Dict<string, ReviewSummary>

  /** `Product`; the `scraped_at` time stamp is not modelled. */
  datatype Product = Product(
    id: string,
    name: string,
    manufacturer: string,
    modelNumber: Option<string>,
    category: string,
    specifications: Specs,
    pricing: Pricing,
    reviews: Reviews,
    manufacturerUrl: Option<string>,
    imageUrl: Option<string>)
  {
    /** Every price and rating passed its validator, and each dictionary has
        distinct keys. */
    predicate Valid() {
      && UniqueKeys(pricing) && UniqueKeys(reviews)
      && (forall i :: 0 <= i < |pricing| ==> pricing[i].1.Valid())
      && (forall i :: 0 <= i < |reviews| ==> reviews[i].1.Valid())
    }
  }

  /** `is_available`: some retailer has the product in stock. */
  predicate IsAvailable(p: Product) {
    exists i :: 0 <= i < |p.pricing| && p.pricing[i].1.inStock
  }

  /** The position `min(available.items(), key=total price)` picks: `min`
      keeps the earliest of several equally cheap entries. */
  function BestIndex(d: Pricing): (r: Option<nat>)
    ensures r.None? <==> forall j :: 0 <= j < |d| ==> !d[j].1.inStock
    ensures r.Some? ==> r.value < |d| && d[r.value].1.inStock
    ensures r.Some? ==> forall j :: 0 <= j < |d| && d[j].1.inStock ==> d[r.value].1.TotalPrice() <= d[j].1.TotalPrice()
    ensures r.Some? ==> forall j :: 0 <= j < r.value && d[j].1.inStock ==> d[r.value].1.TotalPrice() < d[j].1.TotalPrice()
    decreases |d|
  {
    if d == [] then None
    else
      var n := |d| - 1;
      var b := BestIndex(d[..n]);
      if !d[n].1.inStock then b
      else if b.None? then Some(n)
      else if d[n].1.TotalPrice() < d[b.value].1.TotalPrice() then Some(n)
      else b
  }

  /** `get_best_price`: the retailer and current price (shipping excluded) of
      the in-stock offer with the lowest total, or `("", 0.0)` when nothing
      is in stock. */
  function GetBestPrice(p: Product): (r: (string, real))
    ensures !IsAvailable(p) ==> r == ("", 0.0)
    ensures IsAvailable(p) ==> (BestIndex(p.pricing).Some? &&
      var i := BestIndex(p.pricing).value;
      r == (p.pricing[i].0, p.pricing[i].1.currentPrice))
  {
    match BestIndex(p.pricing)
    case None => ("", 0.0)
    case Some(i) => (p.pricing[i].0, p.pricing[i].1.currentPrice)
  }

  /** The best offer is in stock and no in-stock offer totals less. */
  lemma BestPriceIsCheapest(p: Product, j: nat)
    requires IsAvailable(p) && j < |p.pricing| && p.pricing[j].1.inStock
    ensures var i := BestIndex(p.pricing).value;
      GetBestPrice(p).0 == p.pricing[i].0 && p.pricing[i].1.inStock &&
      p.pricing[i].1.TotalPrice() <= p.pricing[j].1.TotalPrice()
  {
  }

  /** The sum and the number of ratings of the summaries with at least one review. */
  function RatedSum(d: Reviews): real {
    if d == [] then 0.0
    else (if d[0].1.totalReviews > 0 then d[0].1.averageRating else 0.0) + RatedSum(d[1..])
  }

  function RatedCount(d: Reviews): nat {
    if d == [] then 0
    else (if d[0].1.totalReviews > 0 then 1 else 0) + RatedCount(d[1..])
  }

  lemma {:induction false} RatedSumBounds(d: Reviews)
    requires forall i :: 0 <= i < |d| ==> d[i].1.Valid()
    ensures 0.0 <= RatedSum(d) <= 5.0 * RatedCount(d) as real
  {
    if d != [] {
      RatedSumBounds(d[1..]);
    }
  }

  /** `get_average_rating`: the mean rating of the retailers that have
      reviews, 0.0 when none has. */
  function AverageRating(p: Product): (r: real)
    ensures RatedCount(p.reviews) == 0 ==> r == 0.0
    ensures RatedCount(p.reviews) > 0 ==> r * RatedCount(p.reviews) as real == RatedSum(p.reviews)
  {
    if p.reviews == [] then 0.0
    else if RatedCount(p.reviews) == 0 then 0.0
    else RatedSum(p.reviews) / RatedCount(p.reviews) as real
  }

  /** The average of valid ratings is itself a valid rating. */
  lemma AverageRatingInRange(p: Product)
    requires p.Valid()
    ensures 0.0 <= AverageRating(p) <= 5.0
  {
    RatedSumBounds(p.reviews);
    if RatedCount(p.reviews) > 0 {
      RatioBounds(AverageRating(p), RatedCount(p.reviews) as real, RatedSum(p.reviews));
    }
  }

  lemma RatioBounds(a: real, c: real, s: real)
    requires c > 0.0 && 0.0 <= s <= 5.0 * c && a * c == s
    ensures 0.0 <= a <= 5.0
  {
    assert (5.0 - a) * c == 5.0 * c - s;
  }

  lemma {:induction false} RatedSumUniform(d: Reviews, x: real)
    requires forall i :: 0 <= i < |d| && d[i].1.totalReviews > 0 ==> d[i].1.averageRating == x
    ensures RatedSum(d) == x * RatedCount(d) as real
  {
    if d != [] {
      RatedSumUniform(d[1..], x);
    }
  }

  /** When every reviewed retailer reports the same rating, that is the average. */
  lemma AverageOfEqualRatings(p: Product, x: real)
    requires forall i :: 0 <= i < |p.reviews| && p.reviews[i].1.totalReviews > 0 ==> p.reviews[i].1.averageRating == x
    requires RatedCount(p.reviews) > 0
    ensures AverageRating(p) == x
  {
    RatedSumUniform(p.reviews, x);
  }

  /** `get_total_reviews` */
  function TotalReviews(d: Reviews): (total: int)
    ensures (forall i :: 0 <= i < |d| ==> d[i].1.totalReviews >= 0) ==>
      total >= 0 && forall i :: 0 <= i < |d| ==> d[i].1.totalReviews <= total
  {
    if d == [] then 0 else d[0].1.totalReviews + TotalReviews(d[1..])
  }

  /** The current prices of the in-stock offers, in dictionary order. */
  function InStockPrices(d: Pricing): (prices: seq<real>)
    ensures forall x :: x in prices <==> exists i :: 0 <= i < |d| && d[i].1.inStock && d[i].1.currentPrice == x
  {
    if d == [] then []
    else
      var rest := InStockPrices(d[1..]);
      assert forall i :: 1 <= i < |d| ==> d[i] == d[1..][i - 1];
      if d[0].1.inStock then [d[0].1.currentPrice] + rest else rest
  }

  function SeqMin(s: seq<real>): (m: real)
    requires s != []
    ensures m in s && forall x :: x in s ==> m <= x
  {
    if |s| == 1 then s[0]
    else
      var m := SeqMin(s[1..]);
      assert forall x :: x in s ==> x == s[0] || x in s[1..];
      if s[0] <= m then s[0] else m
  }

  function SeqMax(s: seq<real>): (m: real)
    requires s != []
    ensures m in s && forall x :: x in s ==> x <= m
  {
    if |s| == 1 then s[0]
    else
      var m := SeqMax(s[1..]);
      assert forall x :: x in s ==> x == s[0] || x in s[1..];
      if s[0] >= m then s[0] else m
  }

  /** `get_price_range`: the lowest and highest current price in stock,
      `(0.0, 0.0)` when nothing is in stock. */
  function PriceRange(p: Product): (r: (real, real))
    ensures !IsAvailable(p) ==> r == (0.0, 0.0)
    ensures IsAvailable(p) ==> r.0 <= r.1
    ensures IsAvailable(p) ==> r.0 in InStockPrices(p.pricing) && r.1 in InStockPrices(p.pricing)
    ensures forall i :: 0 <= i < |p.pricing| && p.pricing[i].1.inStock ==> r.0 <= p.pricing[i].1.currentPrice <= r.1
  {
    var prices := InStockPrices(p.pricing);
    assert forall i :: 0 <= i < |p.pricing| && p.pricing[i].1.inStock ==> p.pricing[i].1.currentPrice in prices;
    if p.pricing == [] || prices == [] then (0.0, 0.0)
    else (SeqMin(prices), SeqMax(prices))
  }

  /** Availability, the best price and the price range agree on whether
      anything is in stock. */
  lemma AvailabilityAgrees(p: Product)
    ensures IsAvailable(p) <==> BestIndex(p.pricing).Some?
    ensures IsAvailable(p) <==> InStockPrices(p.pricing) != []
  {
    if IsAvailable(p) {
      var i :| 0 <= i < |p.pricing| && p.pricing[i].1.inStock;
      assert p.pricing[i].1.currentPrice in InStockPrices(p.pricing);
    }
    if InStockPrices(p.pricing) != [] {
      assert InStockPrices(p.pricing)[0] in InStockPrices(p.pricing);
    }
  }

  /** Without shipping costs the best price is the low end of the price range. */
  lemma BestPriceIsRangeMinimum(p: Product)
    requires IsAvailable(p)
    requires forall i :: 0 <= i < |p.pricing| ==> p.pricing[i].1.shippingCost.None? || p.pricing[i].1.shippingCost.value == 0.0
    ensures GetBestPrice(p).1 == PriceRange(p).0
  {
    var d := p.pricing;
    var i := BestIndex(d).value;
    var lo := PriceRange(p).0;
    assert d[i].1.currentPrice in InStockPrices(d);
    assert lo <= d[i].1.currentPrice;
    var j :| 0 <= j < |d| && d[j].1.inStock && d[j].1.currentPrice == lo;
    assert d[i].1.TotalPrice() <= d[j].1.TotalPrice();
  }

  /** `get_retailer_urls`: each retailer whose offer has a non-empty link. */
  function RetailerUrls(d: Pricing): (urls: Dict<string, string>)
    ensures |urls| <= |d|
    ensures forall i :: 0 <= i < |urls| ==> urls[i].1 != ""
  {
    if d == [] then []
    else
      var rest := RetailerUrls(d[1..]);
      if d[0].1.url != "" then [(d[0].0, d[0].1.url)] + rest else rest
  }

  lemma {:induction false} RetailerUrlsKeys(d: Pricing)
    ensures KeySet(RetailerUrls(d)) <= KeySet(d)
  {
    if d != [] {
      RetailerUrlsKeys(d[1..]);
      if d[0].1.url != "" {
        assert ([(d[0].0, d[0].1.url)] + RetailerUrls(d[1..]))[1..] == RetailerUrls(d[1..]);
      }
    }
  }

  /** A retailer has a link exactly when its offer carries a non-empty URL,
      and the link is that URL. */
  lemma {:induction false} RetailerUrlsGet(d: Pricing, retailer: string)
    requires UniqueKeys(d)
    ensures Get(RetailerUrls(d), retailer) ==
      match Get(d, retailer)
      case Some(info) => if info.url != "" then Some(info.url) else None
      case None => None
  {
    if d != [] {
      RetailerUrlsGet(d[1..], retailer);
      if d[0].0 == retailer {
        RetailerUrlsKeys(d[1..]);
      }
    }
  }

  /** `AnalysisResult`, restricted to the validated scores and the ranks. */
  datatype AnalysisResult = AnalysisResult(
    product: Product,
    matchScore: real,
    rank: int,
    valueScore: real,
    priceRank: int,
    confidenceRating: real)
  {
    predicate Valid() {
      0.0 <= matchScore <= 100.0 && 0.0 <= valueScore <= 100.0 && 0.0 <= confidenceRating <= 1.0
    }
  }

  datatype ScoreError = MatchScoreOutOfRange | ValueScoreOutOfRange | ConfidenceOutOfRange

  /** Constructing an `AnalysisResult`: both scores must lie in [0, 100] and
      the confidence in [0, 1]; every failing field is reported. */
  function MakeAnalysisResult(product: Product, matchScore: real, rank: int, valueScore: real,
                              priceRank: int, confidenceRating: real): (r: Result<AnalysisResult, seq<ScoreError>>)
    ensures r.Ok? <==> AnalysisResult(product, matchScore, rank, valueScore, priceRank, confidenceRating).Valid()
    ensures r.Ok? ==> r.value == AnalysisResult(product, matchScore, rank, valueScore, priceRank, confidenceRating)
    ensures r.Err? ==> (MatchScoreOutOfRange in r.error <==> !(0.0 <= matchScore <= 100.0))
    ensures r.Err? ==> (ValueScoreOutOfRange in r.error <==> !(0.0 <= valueScore <= 100.0))
    ensures r.Err? ==> (ConfidenceOutOfRange in r.error <==> !(0.0 <= confidenceRating <= 1.0))
  {
    var errors :=
      (if matchScore < 0.0 || matchScore > 100.0 then [MatchScoreOutOfRange] else []) +
      (if valueScore < 0.0 || valueScore > 100.0 then [ValueScoreOutOfRange] else []) +
      (if confidenceRating < 0.0 || confidenceRating > 1.0 then [ConfidenceOutOfRange] else []);
    if errors == [] then Ok(AnalysisResult(product, matchScore, rank, valueScore, priceRank, confidenceRating))
    else Err(errors)
  }
}
