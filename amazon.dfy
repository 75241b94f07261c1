/** The Amazon scraper (scrapers/amazon.py): reading one search-result
    element into a product, the ASIN found in its attributes or link, and
    the capped list of results.  The HTML page is given as the sequence of
    result elements the selectors found, each a record of the texts and
    attributes the scraper reads. */
module AmazonScraper {
  import opened Wrappers
  import opened Strings
  import opened Requirements
  import opened Products
  import opened Candidates
  import opened ScraperBase

  const BaseUrl: string := "https://www.amazon.com"
  const Retailer: string := "amazon"

  /** An ASIN is ten characters, each an upper-case letter or a digit. */
  const AsinLength: nat := 10

  predicate AsinChar(c: char) { IsUpper(c) || IsDigit(c) }

  predicate IsAsin(s: string) {
    |s| == AsinLength && forall i :: 0 <= i < |s| ==> AsinChar(s[i])
  }

  // ---------------------------------------------------------------------
  // The ASIN

  /** The ten characters starting at `i`, when they form an ASIN. */
  function AsinFrom(url: string, i: nat): (r: Option<string>)
    ensures r.Some? ==> IsAsin(r.value) && i + AsinLength <= |url| && r.value == url[i..i + AsinLength]
  {
    if i + AsinLength <= |url| && IsAsin(url[i..i + AsinLength]) then Some(url[i..i + AsinLength])
    else None
  }

  /** A match of `/(?:dp|gp/product)/([A-Z0-9]{10})` starting at `p`, and
      the captured code.  Both alternatives begin with '/' and differ in
      the next character, so at most one of them can apply. */
  function AsinAt(url: string, p: nat): (r: Option<string>)
    ensures r.Some? ==> IsAsin(r.value)
  {
    if MatchAt(url, "/dp/", p) then AsinFrom(url, p + 4)
    else if MatchAt(url, "/gp/product/", p) then AsinFrom(url, p + 12)
    else None
  }

  /** `re.search`: the leftmost position at or after `from` where the
      pattern matches. */
  function AsinSearch(url: string, from: nat): (r: Option<nat>)
    ensures r.Some? ==> from <= r.value < |url| && AsinAt(url, r.value).Some?
    ensures r.Some? ==> forall p :: from <= p < r.value ==> AsinAt(url, p).None?
    ensures r.None? ==> forall p :: from <= p ==> AsinAt(url, p).None?
    decreases |url| - from
  {
    if from >= |url| then None
    else if AsinAt(url, from).Some? then Some(from)
    else AsinSearch(url, from + 1)
  }

  /** `_extract_asin`: a non-empty `data-asin` attribute wins; otherwise
      the code of the leftmost product-page path in the URL, or "". */
  function ExtractAsin(dataAsin: string, url: string): (asin: string)
    ensures dataAsin != [] ==> asin == dataAsin
    ensures dataAsin == [] && asin != [] ==>
      IsAsin(asin) && exists p: nat :: AsinAt(url, p) == Some(asin)
    ensures dataAsin == [] && (forall p: nat :: AsinAt(url, p).None?) ==> asin == []
  {
    if dataAsin != [] then dataAsin
    else if url == [] then []
    else
      match AsinSearch(url, 0)
      case Some(p) => AsinAt(url, p).value
      case None => []
  }

  /** Without a `data-asin` attribute, the code of the first product-page
      path wins over any later one. */
  lemma ExtractAsinLeftmost(url: string, p: nat)
    requires AsinAt(url, p).Some?
    requires forall q :: 0 <= q < p ==> AsinAt(url, q).None?
    ensures ExtractAsin([], url) == AsinAt(url, p).value
  {
    assert AsinSearch(url, 0).Some?;
  }

  /** A match needs a '/' followed by 'd' or 'g'. */
  lemma AsinAtNeedsSlash(url: string, p: nat)
    requires AsinAt(url, p).Some?
    ensures p + 1 < |url| && url[p] == '/' && (url[p + 1] == 'd' || url[p + 1] == 'g')
  {
    if MatchAt(url, "/dp/", p) {
      assert url[p..p + 4][0] == url[p] && url[p..p + 4][1] == url[p + 1];
    } else {
      assert url[p..p + 12][0] == url[p] && url[p..p + 12][1] == url[p + 1];
    }
  }

  /** The site address holds no '/' that a 'd' or a 'g' follows. */
  lemma BaseUrlHasNoPath(url: string, p: nat)
    requires |BaseUrl| < |url| && url[..|BaseUrl|] == BaseUrl && url[|BaseUrl|] == '/'
    requires p < |BaseUrl|
    ensures AsinAt(url, p).None?
  {
    BaseUrlChars(url, p);
    if AsinAt(url, p).Some? {
      AsinAtNeedsSlash(url, p);
    }
  }

  lemma BaseUrlChars(url: string, p: nat)
    requires |BaseUrl| < |url| && url[..|BaseUrl|] == BaseUrl && url[|BaseUrl|] == '/'
    requires p < |BaseUrl|
    ensures !(url[p] == '/' && (url[p + 1] == 'd' || url[p + 1] == 'g'))
  {
    assert url[p] == BaseUrl[p];
    if p + 1 < |BaseUrl| {
      assert url[p + 1] == BaseUrl[p + 1];
    }
  }

  /** The page address of a product. */
  function DetailsUrl(asin: string): (url: string)
    ensures StartsWith(url, BaseUrl + "/dp/")
  {
    BaseUrl + "/dp/" + asin
  }

  /** The ASIN of a product page is the ASIN it was built from: for a
      well-formed code, `_extract_asin` on the address that
      `get_product_details` builds, followed by anything, reads the same
      code back. */
  lemma DetailsUrlAsin(asin: string, rest: string)
    requires IsAsin(asin)
    ensures ExtractAsin([], DetailsUrl(asin) + rest) == asin
  {
    var url := DetailsUrl(asin) + rest;
    var n := |BaseUrl|;
    assert url[..n] == BaseUrl && url[n..n + 4] == "/dp/" && url[n + 4..n + 4 + AsinLength] == asin;
    forall q | 0 <= q < n
      ensures AsinAt(url, q).None?
    {
      BaseUrlHasNoPath(url, q);
    }
    assert AsinAt(url, n) == Some(asin);
    ExtractAsinLeftmost(url, n);
  }

  // ---------------------------------------------------------------------
  // The product link

  /** The link of a result: an `href` beginning with '/' is a path on the
      site and gets the site address in front; any other `href` is used
      as it is; a missing or empty one gives "". */
  function AbsoluteUrl(href: Option<string>): (url: string)
    ensures href.None? || href.value == [] ==> url == []
    ensures href.Some? && href.value != [] && href.value[0] == '/' ==> url == BaseUrl + href.value
    ensures href.Some? && href.value != [] && href.value[0] != '/' ==> url == href.value
    ensures url == [] || url[0] != '/'
  {
    match href
    case None => []
    case Some(h) =>
      if h == [] then []
      else if h[0] == '/' then BaseUrl + h
      else h
  }

  /** A link that is already absolute stays as it is: applying the rule to
      its own result changes nothing. */
  lemma AbsoluteUrlIdempotent(href: Option<string>)
    ensures AbsoluteUrl(Some(AbsoluteUrl(href))) == AbsoluteUrl(href)
  {
  }

  // ---------------------------------------------------------------------
  // The review count

  /** `filter(str.isdigit, s)` for ASCII text. */
  function KeepDigits(s: string): (r: string)
    ensures AllDigits(r) && |r| <= |s|
  {
    if s == [] then []
    else if IsDigit(s[0]) then [s[0]] + KeepDigits(s[1..])
    else KeepDigits(s[1..])
  }

  /** The review count: commas are removed, the digits that remain are
      read as one number, and a text without digits (where `int('')`
      raises) counts as 0. */
  function ReviewCount(text: string): (n: nat)
    ensures KeepDigits(text) == [] ==> n == 0
  {
    var digits := KeepDigits(RemoveChars(text, {','}));
    KeepDigitsIgnoresNonDigits(text, {','});
    if digits == [] then 0 else DigitsValue(digits)
  }

  /** Removing characters that are not digits does not change the digits
      of a text. */
  lemma {:induction false} KeepDigitsIgnoresNonDigits(s: string, cs: set<char>)
    requires forall c :: c in cs ==> !IsDigit(c)
    ensures KeepDigits(RemoveChars(s, cs)) == KeepDigits(s)
  {
    if s != [] {
      KeepDigitsIgnoresNonDigits(s[1..], cs);
      if s[0] !in cs {
        var t := [s[0]] + RemoveChars(s[1..], cs);
        assert t[0] == s[0] && t[1..] == RemoveChars(s[1..], cs);
      }
    }
  }

  /** A run of digits passes the filter unchanged. */
  lemma {:induction false} KeepDigitsOfDigits(s: string)
    requires AllDigits(s)
    ensures KeepDigits(s) == s
  {
    if s != [] {
      KeepDigitsOfDigits(s[1..]);
    }
  }

  /** Text around the digits is ignored: "(1,234)" and "1234 ratings"
      count the same reviews. */
  lemma {:induction false} KeepDigitsAppend(a: string, b: string)
    ensures KeepDigits(a + b) == KeepDigits(a) + KeepDigits(b)
  {
    if a != [] {
      KeepDigitsAppend(a[1..], b);
      assert (a + b)[1..] == a[1..] + b;
    } else {
      assert a + b == b;
    }
  }

  /** The count written as a number, with anything that has no digit
      around it, reads back as that number. */
  lemma ReviewCountOfNumber(n: nat, before: string, after: string)
    requires KeepDigits(before) == [] && KeepDigits(after) == []
    ensures ReviewCount(before + NatToString(n) + after) == n
  {
    var s := NatToString(n);
    KeepDigitsAppend(before, s);
    KeepDigitsAppend(before + s, after);
    KeepDigitsOfDigits(s);
    KeepDigitsIgnoresNonDigits(before + s + after, {','});
    assert KeepDigits(before + s + after) == s;
    NatToStringRoundTrip(n);
  }

  /** A thousands separator does not split the count: the digits on both
      sides are read as one number. */
  lemma ReviewCountSeparator(a: string, b: string)
    ensures ReviewCount(a + "," + b) == ReviewCount(a + b)
  {
    var s := a + "," + b;
    assert s == a + ("," + b);
    KeepDigitsAppend(a, "," + b);
    KeepDigitsAppend(",", b);
    assert ","[1..] == [];
    assert KeepDigits(",") == [];
    KeepDigitsAppend(a, b);
    assert KeepDigits(s) == KeepDigits(a + b);
    KeepDigitsIgnoresNonDigits(s, {','});
    KeepDigitsIgnoresNonDigits(a + b, {','});
  }

  // ---------------------------------------------------------------------
  // One search result

  /** What the selectors read from one result element: the title text, the
      price text, the link's `href`, the rating text, the review-count text
      and the `data-asin` attribute; `None` where the element or attribute
      is absent. */
  datatype ResultItem = ResultItem(
    title: Option<string>,
    priceText: Option<string>,
    href: Option<string>,
    ratingText: Option<string>,
    reviewText: Option<string>,
    dataAsin: Option<string>)

  /** A result element, or one on which reading it raised. */
  datatype Element = Readable(item: ResultItem) | Unreadable

  /** `generate_product_id(name)`: the first 16 characters of the digest of
      "amazon:" and the name, lower-cased.  `digest` stands for MD5. */
  function AmazonProductId(name: string, digest: string -> string): (id: string)
    ensures |id| <= 16
  {
    Prefix(digest(Lower(Retailer + ":" + name)), 16)
  }

  /** The price of a result, when it has a price element whose text holds
      a positive number within the budget. */
  function AcceptedPrice(item: ResultItem, r: UserRequirements): (price: Option<real>)
    ensures price.Some? ==> price.value > 0.0 && IsWithinBudget(price.value, r)
  {
    match item.priceText
    case None => None
    case Some(text) =>
      match ExtractPrice(text)
      case None => None
      case Some(p) => if p <= 0.0 || !IsWithinBudget(p, r) then None else Some(p)
  }

  /** A product as this scraper builds it: one valid in-stock offer and one
      review summary, both from "amazon", at a positive price within the
      budget, with the ASIN as its model number and only specification. */
  predicate AmazonOffer(p: Product, r: UserRequirements) {
    && SingleRetailer(p) && p.pricing[0].0 == Retailer
    && p.pricing[0].1.currentPrice > 0.0 && IsWithinBudget(p.pricing[0].1.currentPrice, r)
    && p.pricing[0].1.inStock
    && p.modelNumber.Some? && p.specifications == [("asin", Str(p.modelNumber.value))]
  }

  /** The product built from an accepted result: offered by "amazon", in
      stock, with the ASIN as its model number and only specification. */
  function AmazonProduct(name: string, price: real, url: string, rating: real, count: int, asin: string,
                         r: UserRequirements, digest: string -> string): (p: Product)
    requires price > 0.0 && IsWithinBudget(price, r) && 0.0 <= rating <= 5.0
    ensures AmazonOffer(p, r)
    ensures p.name == name && p.pricing[0].1.currentPrice == price && p.pricing[0].1.url == url
    ensures p.modelNumber == Some(asin) && p.category == r.productCategory
    ensures p.reviews[0].1.averageRating == rating && p.reviews[0].1.totalReviews == count
  {
    Product(
      AmazonProductId(name, digest), name, ExtractBrand(name), Some(asin), r.productCategory,
      [("asin", Str(asin))],
      SingleOffer(Retailer, price, true, url),
      SingleReview(Retailer, rating, count).value,
      None, None)
  }

  /** The rating of a result: the first number of its rating text, clamped
      to [0, 5]; 0 without a rating element or a number in it. */
  function ItemRating(ratingText: Option<string>): (rating: real)
    ensures 0.0 <= rating <= 5.0
    ensures ratingText.None? ==> rating == 0.0
  {
    match ratingText
    case None => 0.0
    case Some(t) => ExtractRating(t).GetOr(0.0)
  }

  /** `_extract_product_from_item`: `None` without a title or without an
      accepted price; otherwise the product of the cleaned title, the
      absolute link, the rating, the review count and the ASIN. */
  function ExtractProductFromItem(item: ResultItem, r: UserRequirements, digest: string -> string): (p: Option<Product>)
    ensures p.Some? <==> item.title.Some? && AcceptedPrice(item, r).Some?
    ensures p.Some? ==> AmazonOffer(p.value, r)
  {
    match item.title
    case None => None
    case Some(title) =>
      match AcceptedPrice(item, r)
      case None => None
      case Some(price) =>
        var url := AbsoluteUrl(item.href);
        var count := match item.reviewText
          case None => 0
          case Some(t) => ReviewCount(t);
        Some(AmazonProduct(CleanText(title), price, url, ItemRating(item.ratingText), count,
                           ExtractAsin(item.dataAsin.GetOr([]), url), r, digest))
  }

  /** What an accepted result carries over: the cleaned title as name, its
      first word as manufacturer, the absolute link, the ASIN and the
      review count of its texts. */
  lemma ExtractedFields(item: ResultItem, r: UserRequirements, digest: string -> string)
    requires ExtractProductFromItem(item, r, digest).Some?
    ensures var p := ExtractProductFromItem(item, r, digest).value;
      var url := AbsoluteUrl(item.href);
      && p.name == CleanText(item.title.value)
      && p.manufacturer == ExtractBrand(p.name)
      && p.id == AmazonProductId(p.name, digest)
      && p.pricing[0].1.currentPrice == AcceptedPrice(item, r).value
      && p.pricing[0].1.url == url
      && p.modelNumber == Some(ExtractAsin(item.dataAsin.GetOr([]), url))
      && p.reviews[0].1.totalReviews == (if item.reviewText.None? then 0 else ReviewCount(item.reviewText.value))
      && p.reviews[0].1.averageRating == ItemRating(item.ratingText)
  {
  }

  /** The price filter in terms of the price text: a result is refused
      exactly when its text has no digit, or its first number is zero or
      falls outside the budget. */
  lemma PriceRefusal(item: ResultItem, r: UserRequirements)
    requires item.priceText.Some?
    ensures AcceptedPrice(item, r).None? <==>
      var text := item.priceText.value;
      || (forall i :: 0 <= i < |text| ==> !IsDigit(text[i]))
      || ExtractPrice(text).value == 0.0
      || !IsWithinBudget(ExtractPrice(text).value, r)
  {
  }

  // ---------------------------------------------------------------------
  // All results

  /** Reading one element: one that raises gives nothing. */
  function Reader(r: UserRequirements, digest: string -> string): Element -> Option<Product> {
    (e: Element) => if e.Unreadable? then None else ExtractProductFromItem(e.item, r, digest)
  }

  /** `_extract_products`: the products of the readable elements that
      yield one, in page order; an element that raises is skipped. */
  function Extracted(elements: seq<Element>, r: UserRequirements, digest: string -> string): (ps: seq<Product>)
    ensures |ps| <= |elements|
  {
    Kept(elements, Reader(r, digest))
  }

  /** Each extracted product is an accepted Amazon offer read from one of
      the page's elements. */
  lemma ExtractedOffers(elements: seq<Element>, r: UserRequirements, digest: string -> string, i: nat)
    requires i < |Extracted(elements, r, digest)|
    ensures AmazonOffer(Extracted(elements, r, digest)[i], r)
    ensures exists k :: (0 <= k < |elements| && elements[k].Readable?
      && ExtractProductFromItem(elements[k].item, r, digest) == Some(Extracted(elements, r, digest)[i]))
  {
    KeptFrom(elements, Reader(r, digest), i);
    var k :| 0 <= k < |elements| && Reader(r, digest)(elements[k]) == Some(Extracted(elements, r, digest)[i]);
  }

  /** Extraction goes element by element: page order is kept. */
  lemma ExtractedAppend(a: seq<Element>, b: seq<Element>, r: UserRequirements, digest: string -> string)
    ensures Extracted(a + b, r, digest) == Extracted(a, r, digest) + Extracted(b, r, digest)
  {
    KeptAppend(a, b, Reader(r, digest));
  }

  /** An element that raises contributes nothing, wherever it stands. */
  lemma UnreadableSkipped(a: seq<Element>, b: seq<Element>, r: UserRequirements, digest: string -> string)
    ensures Extracted(a + [Unreadable] + b, r, digest) == Extracted(a + b, r, digest)
  {
    var f := Reader(r, digest);
    KeptAppend(a + [Unreadable], b, f);
    KeptAppend(a, [Unreadable], f);
    KeptAppend(a, b, f);
    assert [Unreadable][..0] == [];
  }

  /** The loop of `_extract_products`. */
  method ExtractProducts(elements: seq<Element>, r: UserRequirements, digest: string -> string)
    returns (products: seq<Product>)
    ensures products == Extracted(elements, r, digest)
  {
    products := [];
    for i := 0 to |elements|
      invariant products == Kept(elements[..i], Reader(r, digest))
    {
      assert elements[..i + 1][..i] == elements[..i];
      if elements[i].Unreadable? {
        continue;
      }
      var product := ExtractProductFromItem(elements[i].item, r, digest);
      if product.Some? {
        products := products + [product.value];
      }
    }
    assert elements[..|elements|] == elements;
  }

  /** Python's `s[:n]`: a negative `n` drops that many from the end. */
  function SliceTo<T>(s: seq<T>, n: int): (r: seq<T>)
    ensures |r| <= |s| && r == s[..|r|]
    ensures n >= 0 ==> |r| == if n < |s| then n else |s|
    ensures n < 0 ==> |r| == if -n < |s| then |s| + n else 0
  {
    if n >= 0 then Prefix(s, n)
    else if -n < |s| then s[..|s| + n] else []
  }

  /** `search`: the page's elements (`None` when fetching or parsing the
      page raised), their products capped at `limit`
      (`MAX_PRODUCTS_PER_RETAILER`). */
  function SearchResults(page: Option<seq<Element>>, r: UserRequirements, limit: int, digest: string -> string): (ps: seq<Product>)
    ensures page.None? ==> ps == []
    ensures page.Some? ==> |ps| <= |Extracted(page.value, r, digest)| && ps == Extracted(page.value, r, digest)[..|ps|]
    ensures limit >= 0 ==> |ps| <= limit
  {
    match page
    case None => []
    case Some(elements) =>
      var all := Extracted(elements, r, digest);
      SliceTo(all, limit)
  }

  /** `search`, with the page fetched by the caller. */
  method Search(page: Option<seq<Element>>, r: UserRequirements, limit: int, digest: string -> string)
    returns (products: seq<Product>)
    ensures products == SearchResults(page, r, limit, digest)
  {
    if page.None? {
      return [];
    }
    products := ExtractProducts(page.value, r, digest);
    products := SliceTo(products, limit);
  }

  /** A page with no more accepted results than the limit is returned
      whole. */
  lemma SearchKeepsShortPages(elements: seq<Element>, r: UserRequirements, limit: int, digest: string -> string)
    requires |Extracted(elements, r, digest)| <= limit
    ensures SearchResults(Some(elements), r, limit, digest) == Extracted(elements, r, digest)
  {
  }

  // ---------------------------------------------------------------------
  // Product details

  datatype Details = Details(asin: string, url: string)

  /** `get_product_details`: `None` for an empty ASIN or when fetching the
      page raises (`fetched` is false); otherwise the ASIN and its page. */
  function ProductDetails(asin: string, fetched: bool): (d: Option<Details>)
    ensures d.Some? <==> asin != [] && fetched
    ensures d.Some? ==> d.value.asin == asin && d.value.url == DetailsUrl(asin)
  {
    if asin == [] || !fetched then None
    else Some(Details(asin, DetailsUrl(asin)))
  }

  /** The details of a well-formed ASIN point at a page whose address reads
      back as that ASIN. */
  lemma DetailsRoundTrip(asin: string)
    requires IsAsin(asin)
    ensures ProductDetails(asin, true).Some?
    ensures ExtractAsin([], ProductDetails(asin, true).value.url) == asin
  {
    DetailsUrlAsin(asin, []);
    assert DetailsUrl(asin) + [] == DetailsUrl(asin);
  }
}
