/** The Google Shopping researcher (agents/researcher_serp.py): the short
    search query, the price, review-count and retailer parsers, the
    acceptance of one shopping result and the capped result loop.  The
    search service is a function from the request to its response. */
module SerpResearcher {
  import opened Wrappers
  import opened Strings
  import opened Dicts
  import opened Requirements
  import opened Products
  import opened Candidates
  import ScraperBase

  /** The longest query sent. */
  const QueryLimit: nat := 100
  /** Only the first three specifications are looked at ... */
  const QuerySpecs: nat := 3
  /** ... and only string values of at most four words are used. */
  const SpecWordLimit: nat := 4
  /** The use case is added when it has at most three words. */
  const UseCaseWordLimit: nat := 3

  // ---------------------------------------------------------------------
  // The search query

  /** The string specification values of at most four words, in order. */
  function ShortSpecTexts(specs: Specs): (texts: seq<string>)
    ensures |texts| <= |specs|
    ensures forall k :: 0 <= k < |texts| ==> |Words(texts[k])| <= SpecWordLimit
    ensures forall k :: 0 <= k < |texts| ==> exists j :: 0 <= j < |specs| && specs[j].1 == Str(texts[k])
  {
    if specs == [] then []
    else
      var last := specs[|specs| - 1].1;
      var init := specs[..|specs| - 1];
      var before := ShortSpecTexts(init);
      assert forall j :: 0 <= j < |init| ==> init[j] == specs[j];
      if last.Str? && |Words(last.s)| <= SpecWordLimit then before + [last.s] else before
  }

  /** The use case, when it is set and short. */
  function UseCaseHint(r: UserRequirements): seq<string> {
    if r.useCase != "" && |Words(r.useCase)| <= UseCaseWordLimit then [r.useCase] else []
  }

  /** The words joined into the query, before the length cap. */
  function QueryParts(r: UserRequirements): seq<string> {
    [r.productCategory] + ShortSpecTexts(Prefix(r.mustHaveSpecs, QuerySpecs)) + UseCaseHint(r)
  }

  /** The query: the parts joined by spaces and cut to 100 characters. */
  function SearchQuery(r: UserRequirements): string {
    Prefix(Join(QueryParts(r), " "), QueryLimit)
  }

  /** `_build_search_query` */
  method BuildSearchQuery(r: UserRequirements) returns (query: string)
    ensures query == SearchQuery(r)
  {
    var parts := [r.productCategory];
    var texts := ShortSpecsOf(Prefix(r.mustHaveSpecs, QuerySpecs));
    parts := parts + texts;
    if r.useCase != "" && |Words(r.useCase)| <= UseCaseWordLimit {
      parts := parts + [r.useCase];
    }
    assert parts == QueryParts(r);
    query := Join(parts, " ");
    if |query| > QueryLimit {
      query := query[..QueryLimit];
    }
  }

  /** The loop over the first specifications, keeping the short texts. */
  method ShortSpecsOf(specs: Specs) returns (texts: seq<string>)
    ensures texts == ShortSpecTexts(specs)
  {
    texts := [];
    for i := 0 to |specs|
      invariant texts == ShortSpecTexts(specs[..i])
    {
      assert specs[..i + 1][..i] == specs[..i];
      var value := specs[i].1;
      if value.Str? && |Words(value.s)| <= SpecWordLimit {
        texts := texts + [value.s];
      }
    }
    assert specs[..|specs|] == specs;
  }

  lemma {:induction false} JoinStartsWithFirst(parts: seq<string>, sep: string)
    requires parts != []
    ensures StartsWith(Join(parts, sep), parts[0])
  {
    if |parts| > 1 {
      assert Join(parts, sep) == parts[0] + (sep + Join(parts[1..], sep));
    }
  }

  /** The query never exceeds 100 characters, starts with (the first 100
      characters of) the category, uses at most three specification values,
      and is the whole joined text whenever that fits. */
  lemma QueryShape(r: UserRequirements)
    ensures var q := SearchQuery(r);
      && |q| <= QueryLimit
      && StartsWith(q, Prefix(r.productCategory, QueryLimit))
      && (|Join(QueryParts(r), " ")| <= QueryLimit ==> q == Join(QueryParts(r), " "))
    ensures |ShortSpecTexts(Prefix(r.mustHaveSpecs, QuerySpecs))| <= QuerySpecs
  {
    var j := Join(QueryParts(r), " ");
    JoinStartsWithFirst(QueryParts(r), " ");
    var c := r.productCategory;
    var q := Prefix(j, QueryLimit);
    var pc := Prefix(c, QueryLimit);
    assert j[..|c|] == c;
    assert q[..|pc|] == pc by {
      assert q == j[..|q|];
      assert pc == c[..|pc|];
    }
  }

  // ---------------------------------------------------------------------
  // Parsers

  /** The characters `_parse_price` deletes. */
  const PriceSymbols: set<char> := {',', '$', '€', '£', '¥'}

  /** `_parse_price`: the first number once currency symbols and commas are
      removed, 0.0 when there is none. */
  function ParsePrice(text: string): (price: real)
    ensures price >= 0.0
    ensures (forall i :: 0 <= i < |text| ==> !IsDigit(text[i])) ==> price == 0.0
  {
    if text == [] then 0.0
    else
      ScraperBase.RemoveCharsKeepsDigits(text, PriceSymbols);
      match FirstDecimal(RemoveChars(text, PriceSymbols))
      case None => 0.0
      case Some(d) =>
        DecimalNonNegative(d);
        d.Value()
  }

  /** A price written after text without digits and before text that ends
      the number (and is no currency sign or comma) is read back exactly,
      whatever currency signs and commas precede it. */
  lemma ParsePriceOf(before: string, d: Decimal, after: string)
    requires d.Valid()
    requires forall i :: 0 <= i < |before| ==> !IsDigit(before[i])
    requires EndsNumber(d, after) && (after == [] || after[0] !in PriceSymbols)
    ensures ParsePrice(before + DecimalText(d) + after) == d.Value()
  {
    var text := before + DecimalText(d) + after;
    ScraperBase.NumberAmongNoise(before, d, after, PriceSymbols);
    var b, a := RemoveChars(before, PriceSymbols), RemoveChars(after, PriceSymbols);
    assert RemoveChars(text, PriceSymbols) == b + DecimalText(d) + a;
    FirstDecimalOfText(b, d, a);
  }

  /** Removing characters the text does not contain beyond a smaller set
      gives the same text as removing only that set. */
  lemma {:induction false} RemoveCharsExtra(s: string, cs: set<char>, more: set<char>)
    requires forall i :: 0 <= i < |s| ==> s[i] !in more
    ensures RemoveChars(s, cs + more) == RemoveChars(s, cs)
  {
    if s != [] {
      RemoveCharsExtra(s[1..], cs, more);
    }
  }

  /** On text without the euro, pound or yen sign the price parser agrees
      with the scraper's `extract_price`, a missing price reading as 0.0. */
  lemma ParsePriceAgreesWithExtractPrice(text: string)
    requires forall i :: 0 <= i < |text| ==> text[i] !in {'€', '£', '¥'}
    ensures ParsePrice(text) == ScraperBase.ExtractPrice(text).GetOr(0.0)
  {
    assert PriceSymbols == ScraperBase.PriceNoise + {'€', '£', '¥'};
    RemoveCharsExtra(text, ScraperBase.PriceNoise, {'€', '£', '¥'});
  }

  /** The characters `_parse_review_count` deletes before the plain scan:
      commas and whitespace. */
  const ReviewNoise: set<char> :=
    {',', ' ', '\t', '\n', '\r', '\U{000B}', '\U{000C}', '\U{001C}', '\U{001D}', '\U{001E}', '\U{001F}'}

  /** `(\d+\.?\d*)k` matches at `i`.  Backtracking cannot help a failed
      greedy attempt, because giving back any character leaves a digit or a
      point, not a `k`, in front of the `k` the pattern needs. */
  predicate KMatchAt(s: string, i: nat) {
    i < |s| && IsDigit(s[i]) && i + DecimalEnd(s[i..]) < |s| && s[i + DecimalEnd(s[i..])] == 'k'
  }

  /** `re.search(r'(\d+\.?\d*)k', s)`: the number of the leftmost match. */
  function KNumber(s: string, from: nat): (r: Option<Decimal>)
    ensures r.Some? ==> r.value.Valid()
    ensures r.None? <==> forall i :: from <= i < |s| ==> !KMatchAt(s, i)
    decreases |s| - from
  {
    if from >= |s| then None
    else if KMatchAt(s, from) then Some(DecimalAt(s[from..]))
    else KNumber(s, from + 1)
  }

  /** `_parse_review_count`: in text with a `k` (either case), the number in
      front of the first "<number>k" times 1000, truncated; otherwise, or
      when no number stands right before a `k`, the first run of digits once
      commas and whitespace are removed; 0 when there is none. */
  function ParseReviewCount(text: string): (count: nat)
    ensures (forall i :: 0 <= i < |text| ==> !IsDigit(text[i])) ==> count == 0
  {
    if text == [] then 0
    else
      var lower := Lower(text);
      var k := if Contains(lower, "k") then KNumber(lower, 0) else None;
      if k.Some? then
        DecimalNonNegative(k.value);
        (k.value.Value() * 1000.0).Floor as nat
      else
        ScraperBase.RemoveCharsKeepsDigits(text, ReviewNoise);
        FirstInt(RemoveChars(text, ReviewNoise)).GetOr(0)
  }

  /** With no `k` in it, the count is the first run of digits of the text
      without its commas and whitespace. */
  lemma ReviewCountWithoutK(text: string)
    requires forall i :: 0 <= i < |text| ==> text[i] != 'k' && text[i] != 'K'
    ensures ParseReviewCount(text) == FirstInt(RemoveChars(text, ReviewNoise)).GetOr(0)
  {
    if text != [] {
      var lower := Lower(text);
      forall i | 0 <= i < |lower| ensures lower[i] != 'k' {
        assert lower[i] == LowerChar(text[i]);
      }
      assert KNumber(lower, 0).None?;
    }
  }

  /** "<digits>k" (or "K") counts the digits' value in thousands: "2k" is 2000. */
  lemma ReviewCountThousands(digits: string, k: char)
    requires digits != [] && AllDigits(digits) && (k == 'k' || k == 'K')
    ensures ParseReviewCount(digits + [k]) == DigitsValue(digits) * 1000
  {
    var text := digits + [k];
    var lower := Lower(text);
    assert lower == digits + ['k'] by {
      forall i | 0 <= i < |text| ensures lower[i] == (digits + ['k'])[i] {
        if i < |digits| {
          assert text[i] == digits[i];
        }
      }
    }
    ContainsAt(lower, "k", |digits|);
    KNumberOfThousands(digits);
    WholeValue(digits);
    var n := DigitsValue(digits);
    assert n as real * 1000.0 == (n * 1000) as real;
  }

  /** A number without a fractional part is worth its digits. */
  lemma WholeValue(digits: string)
    requires digits != [] && AllDigits(digits)
    ensures Decimal(digits, []).Value() == DigitsValue(digits) as real
  {
    var d := Decimal(digits, []);
    assert DigitsValue(d.frac) == 0 && Pow10(|d.frac|) == 1;
  }

  lemma KNumberOfThousands(digits: string)
    requires digits != [] && AllDigits(digits)
    ensures KNumber(digits + ['k'], 0) == Some(Decimal(digits, []))
  {
    var t := digits + ['k'];
    DigitRunOfDigits(digits, 'k');
    assert t[|digits|..] == ['k'];
    assert t[..|digits|] == digits;
    assert DecimalEnd(t) == |digits|;
    assert DecimalAt(t) == Decimal(digits, []);
    assert t[0..] == t;
    assert KMatchAt(t, 0);
  }

  lemma {:induction false} DigitRunOfDigits(digits: string, c: char)
    requires AllDigits(digits) && !IsDigit(c)
    ensures DigitRun(digits + [c]) == |digits|
  {
    if digits != [] {
      assert (digits + [c])[1..] == digits[1..] + [c];
      DigitRunOfDigits(digits[1..], c);
    }
  }

  /** `_normalize_retailer`: the three known retailers by substring, in
      this order, then the lower-cased first word, "unknown" for an empty
      source; `None` where `split()[0]` raises on a blank source. */
  function NormalizeRetailer(source: string): (r: Option<string>)
    ensures Contains(Lower(source), "amazon") ==> r == Some("amazon")
  {
    var lower := Lower(source);
    if Contains(lower, "amazon") then Some("amazon")
    else if Contains(lower, "walmart") then Some("walmart")
    else if Contains(lower, "best buy") || Contains(lower, "bestbuy") then Some("bestbuy")
    else if source == [] then Some("unknown")
    else
      match FirstWord(source)
      case None => None
      case Some(w) => Some(Lower(w))
  }

  /** A name `_normalize_retailer` can return: one non-empty word without
      upper-case letters. */
  predicate RetailerName(w: string) {
    w != [] && NoSpace(w) && forall i :: 0 <= i < |w| ==> !IsUpper(w[i])
  }

  /** Lower-cased whitespace contains no text that starts with a visible
      character. */
  lemma BlankContainsNothing(s: string, pat: string)
    requires pat != [] && !IsSpace(pat[0])
    ensures IsBlank(s) ==> !Contains(Lower(s), pat)
  {
  }

  /** Only a source made of whitespace, and not empty, makes the
      normalisation raise; otherwise it yields a retailer name. */
  lemma NormalizeRetailerShape(source: string)
    ensures NormalizeRetailer(source).None? <==> source != [] && IsBlank(source)
    ensures NormalizeRetailer(source).Some? ==> RetailerName(NormalizeRetailer(source).value)
  {
    BlankContainsNothing(source, "amazon");
    BlankContainsNothing(source, "walmart");
    BlankContainsNothing(source, "best buy");
    BlankContainsNothing(source, "bestbuy");
    FirstWordExists(source);
    KnownNames();
    var lower := Lower(source);
    if !Contains(lower, "amazon") && !Contains(lower, "walmart") && !Contains(lower, "best buy") && !Contains(lower, "bestbuy")
       && source != [] && !IsBlank(source) {
      FirstWordShape(source);
      var w := FirstWord(source).value;
      assert forall i :: 0 <= i < |w| ==> !IsSpace(Lower(w)[i]) by {
        forall i | 0 <= i < |w| ensures !IsSpace(Lower(w)[i]) {
          assert Lower(w)[i] == LowerChar(w[i]);
        }
      }
    }
  }

  lemma KnownNames()
    ensures RetailerName("amazon") && RetailerName("walmart") && RetailerName("bestbuy") && RetailerName("unknown")
  {
  }

  /** No occurrence at any position. */
  lemma NotContains(s: string, pat: string)
    requires forall j :: 0 <= j ==> !MatchAt(s, pat, j)
    ensures !Contains(s, pat)
  {
  }

  /** A differing character rules out an occurrence. */
  lemma NoMatchAt(s: string, pat: string, i: nat, k: nat)
    requires k < |pat| && i + k < |s| && s[i + k] != pat[k]
    ensures !MatchAt(s, pat, i)
  {
    assert i + |pat| > |s| || s[i..i + |pat|][k] == s[i + k];
  }

  /** An occurrence inside a slice is an occurrence in the whole text. */
  lemma ContainsInSlice(s: string, a: nat, b: nat, pat: string)
    requires a <= b <= |s|
    ensures Contains(s[a..b], pat) ==> Contains(s, pat)
  {
    if Contains(s[a..b], pat) {
      var j := Find(s[a..b], pat, 0).value;
      assert MatchAt(s[a..b], pat, j);
      SliceOfSlice(s, a, b, j, j + |pat|);
      ContainsAt(s, pat, a + j);
    }
  }

  lemma SliceOfSlice(s: string, a: nat, b: nat, i: nat, j: nat)
    requires a <= b <= |s| && i <= j <= b - a
    ensures s[a..b][i..j] == s[a + i..a + j]
  {
    assert forall k :: 0 <= k < j - i ==> s[a..b][i..j][k] == s[a + i + k];
  }

  /** Lower-casing commutes with slicing. */
  lemma LowerSlice(s: string, a: nat, b: nat)
    requires a <= b <= |s|
    ensures Lower(s)[a..b] == Lower(s[a..b])
  {
  }

  /** The fixed names normalise to themselves. */
  lemma KnownNamesAreFixed()
    ensures NormalizeRetailer("amazon") == Some("amazon")
    ensures NormalizeRetailer("walmart") == Some("walmart")
    ensures NormalizeRetailer("bestbuy") == Some("bestbuy")
    ensures NormalizeRetailer("unknown") == Some("unknown")
  {
    KnownNames();
    LowerOfLower("amazon");
    LowerOfLower("walmart");
    LowerOfLower("bestbuy");
    LowerOfLower("unknown");
    ContainsAt("amazon", "amazon", 0);
    ContainsAt("walmart", "walmart", 0);
    ContainsAt("bestbuy", "bestbuy", 0);
    NoMatchAt("walmart", "amazon", 0, 0);
    NoMatchAt("walmart", "amazon", 1, 1);
    NotContains("walmart", "amazon");
    NoMatchAt("bestbuy", "amazon", 0, 0);
    NoMatchAt("bestbuy", "amazon", 1, 0);
    NotContains("bestbuy", "amazon");
    NoMatchAt("bestbuy", "walmart", 0, 0);
    NotContains("bestbuy", "walmart");
    NoMatchAt("unknown", "amazon", 0, 0);
    NoMatchAt("unknown", "amazon", 1, 0);
    NotContains("unknown", "amazon");
    NoMatchAt("unknown", "walmart", 0, 0);
    NotContains("unknown", "walmart");
    NotContains("unknown", "best buy");
    NoMatchAt("unknown", "bestbuy", 0, 0);
    NotContains("unknown", "bestbuy");
    FirstWordOfWord("unknown");
  }

  /** A retailer name that mentions none of the known retailers is its own
      normalisation. */
  lemma WordIsFixed(w: string)
    requires RetailerName(w)
    requires !Contains(w, "amazon") && !Contains(w, "walmart") && !Contains(w, "best buy") && !Contains(w, "bestbuy")
    ensures NormalizeRetailer(w) == Some(w)
  {
    LowerOfLower(w);
    FirstWordOfWord(w);
  }

  /** The lower-cased first word is part of the lower-cased source, so it
      mentions no retailer the source does not. */
  lemma FirstWordMentions(source: string, pat: string)
    requires !IsBlank(source) && !Contains(Lower(source), pat)
    ensures FirstWord(source).Some? && !Contains(Lower(FirstWord(source).value), pat)
  {
    var i, w := FirstWordAt(source);
    SliceMentions(source, i, w, pat);
  }

  /** The first word of a text that is not blank, and where it sits. */
  lemma FirstWordAt(s: string) returns (i: nat, w: string)
    requires !IsBlank(s)
    ensures FirstWord(s) == Some(w) && i + |w| <= |s| && s[i..i + |w|] == w
  {
    FirstWordExists(s);
    FirstWordShape(s);
    i := LeadingSpaces(s);
    w := FirstWord(s).value;
  }

  /** A piece of a text that does not mention `pat` does not mention it
      either, lower-cased. */
  lemma SliceMentions(source: string, i: nat, w: string, pat: string)
    requires i + |w| <= |source| && source[i..i + |w|] == w && !Contains(Lower(source), pat)
    ensures !Contains(Lower(w), pat)
  {
    LowerSlice(source, i, i + |w|);
    ContainsInSlice(Lower(source), i, i + |w|, pat);
  }

  /** Normalising a normalised retailer name changes nothing: every name
      the function returns is one of its fixed points. */
  lemma NormalizeRetailerIdempotent(source: string)
    requires NormalizeRetailer(source).Some?
    ensures NormalizeRetailer(NormalizeRetailer(source).value) == NormalizeRetailer(source)
  {
    KnownNamesAreFixed();
    var lower := Lower(source);
    if !Contains(lower, "amazon") && !Contains(lower, "walmart") && !Contains(lower, "best buy") && !Contains(lower, "bestbuy")
       && source != [] {
      NormalizeRetailerShape(source);
      FirstWordMentions(source, "amazon");
      FirstWordMentions(source, "walmart");
      FirstWordMentions(source, "best buy");
      FirstWordMentions(source, "bestbuy");
      WordIsFixed(NormalizeRetailer(source).value);
    }
  }

  // ---------------------------------------------------------------------
  // Shopping results

  /** One entry of `shopping_results`; a field is `None` when its key is
      absent.  `price` and `reviews` hold the `str()` text of the value. */
  datatype ShoppingResult = ShoppingResult(
    title: Option<string>,
    price: Option<string>,
    source: Option<string>,
    link: Option<string>,
    rating: Field<real>,
    reviews: Option<string>,
    thumbnail: Option<string>)
  {
    function Name(): string { title.GetOr("Unknown Product") }
    function Price(): real { ParsePrice(price.GetOr("0")) }
    function Source(): string { source.GetOr("unknown") }
  }

  /** `_extract_product_from_shopping_result`: `None` for a price that is
      not positive or is over the effective maximum, and wherever building
      the product raises (a blank source or name, a rating that does not
      convert or fails its validator).  `digest` stands for the MD5 product
      id. */
  function ExtractShoppingResult(item: ShoppingResult, r: UserRequirements, digest: string -> string): (p: Option<Product>)
    ensures p.Some? ==> AcceptedOffer(p.value, r) && p.value.pricing[0].1.currentPrice == item.Price()
  {
    var name := item.Name();
    var price := item.Price();
    if price <= 0.0 then None
    else if r.budget.Some? && price > r.budget.value.EffectiveMax() then None
    else
      match NormalizeRetailer(item.Source())
      case None => None
      case Some(retailer) =>
        match item.rating.Convert(0.0)
        case None => None
        case Some(rating) =>
          match Manufacturer(name)
          case None => None
          case Some(manufacturer) =>
            var count := ParseReviewCount(item.reviews.GetOr("0"));
            match SingleReview(retailer, rating, count)
            case None => None
            case Some(reviews) =>
              var p := Product(
                digest(name + item.Source()), name, manufacturer, None, r.productCategory,
                [("source", Str(item.Source())), ("thumbnail", Str(item.thumbnail.GetOr("")))],
                SingleOffer(retailer, price, true, item.link.GetOr("")),
                reviews, None, item.thumbnail);
              SingleRetailerValid(p, retailer, price, true, item.link.GetOr(""), rating, count);
              Some(p)
  }

  /** An accepted result's one offer and one review summary are keyed by the
      normalised retailer, the offer is in stock, and the manufacturer is
      the name's first word. */
  lemma ShoppingResultShape(item: ShoppingResult, r: UserRequirements, digest: string -> string)
    requires ExtractShoppingResult(item, r, digest).Some?
    ensures var p := ExtractShoppingResult(item, r, digest).value;
      && NormalizeRetailer(item.Source()).Some?
      && RetailerName(NormalizeRetailer(item.Source()).value)
      && p.pricing[0].0 == NormalizeRetailer(item.Source()).value
      && p.pricing[0].1.inStock
      && p.manufacturer == Manufacturer(item.Name()).value
      && p.name == item.Name() && p.category == r.productCategory
  {
    NormalizeRetailerShape(item.Source());
  }

  /** A result with an acceptable price, a source and a name that are not
      blank, and a rating that converts to a value in [0, 5] is accepted. */
  lemma ShoppingResultAccepted(item: ShoppingResult, r: UserRequirements, digest: string -> string)
    requires PriceAccepted(item.Price(), r)
    requires !(item.Source() != [] && IsBlank(item.Source())) && !(item.Name() != [] && IsBlank(item.Name()))
    requires item.rating.Convert(0.0).Some? && 0.0 <= item.rating.Convert(0.0).value <= 5.0
    ensures ExtractShoppingResult(item, r, digest).Some?
  {
    NormalizeRetailerShape(item.Source());
  }

  /** The products built from the results, in order, the refused ones left out. */
  function AcceptedResults(items: seq<ShoppingResult>, r: UserRequirements, digest: string -> string): (ps: seq<Product>)
    ensures |ps| <= |items|
    ensures forall i :: 0 <= i < |ps| ==> AcceptedOffer(ps[i], r)
  {
    if items == [] then []
    else
      var before := AcceptedResults(items[..|items| - 1], r, digest);
      match ExtractShoppingResult(items[|items| - 1], r, digest)
      case None => before
      case Some(p) => before + [p]
  }

  /** The loop of `_search_google_shopping` over the first `limit` results. */
  method CollectResults(results: seq<ShoppingResult>, r: UserRequirements, limit: nat, digest: string -> string)
    returns (products: seq<Product>)
    ensures products == AcceptedResults(Prefix(results, limit), r, digest)
    ensures |products| <= limit
  {
    products := [];
    var items := Prefix(results, limit);
    for i := 0 to |items|
      invariant products == AcceptedResults(items[..i], r, digest)
    {
      assert items[..i + 1][..i] == items[..i];
      var product := ExtractShoppingResult(items[i], r, digest);
      if product.Some? {
        products := products + [product.value];
      }
    }
    assert items[..|items|] == items;
  }

  /** What the search service answers: the shopping results (an absent key
      reads as none), or an error. */
  datatype ShoppingResponse = Results(items: seq<ShoppingResult>) | Failed

  /** The products `search` returns for a response. */
  function SearchResults(response: ShoppingResponse, r: UserRequirements, limit: nat, digest: string -> string): (ps: seq<Product>)
    ensures |ps| <= limit
    ensures forall i :: 0 <= i < |ps| ==> AcceptedOffer(ps[i], r)
    ensures response.Failed? ==> ps == []
  {
    match response
    case Failed => []
    case Results(items) => AcceptedResults(Prefix(items, limit), r, digest)
  }

  /** The parameters `_search_google_shopping` sends besides the engine and
      the key: the query, the number of results asked for, and the `tbs`
      price filter when there is a budget. */
  datatype ShoppingRequest = ShoppingRequest(query: string, num: nat, tbs: Option<string>)

  /** The `num` parameter. */
  const ResultsAsked: nat := 20

  /** The text of the `tbs` filter before the price cap. */
  const FilterPrefix: string := "mr:1,price:1,ppr_max:"

  /** Python's `int(x)` on a float: truncation toward zero. */
  function Truncate(x: real): (n: int)
    ensures 0.0 <= x ==> 0 <= n && n as real <= x < n as real + 1.0
    ensures x < 0.0 ==> n <= 0 && (n as real) - 1.0 < x <= n as real
  {
    if x >= 0.0 then x.Floor else -((-x).Floor)
  }

  /** The `tbs` parameter for a budget whose maximum is `max`. */
  function PriceFilter(max: real): string {
    FilterPrefix + IntToString(Truncate(max))
  }

  /** The request for the requirements: the built query, twenty results,
      and the price filter exactly when there is a budget. */
  function Request(r: UserRequirements): (q: ShoppingRequest)
    ensures q.query == SearchQuery(r) && q.num == ResultsAsked
    ensures q.tbs.Some? <==> r.budget.Some?
    ensures q.tbs.Some? ==> q.tbs.value == PriceFilter(r.budget.value.max)
  {
    ShoppingRequest(SearchQuery(r), ResultsAsked, if r.budget.Some? then Some(PriceFilter(r.budget.value.max)) else None)
  }

  /** The filter caps prices at the whole part of a non-negative maximum:
      after its fixed prefix come only digits, whose value is that whole
      part. */
  lemma PriceFilterCap(max: real)
    requires max >= 0.0
    ensures |PriceFilter(max)| > |FilterPrefix| && PriceFilter(max)[..|FilterPrefix|] == FilterPrefix
    ensures var cap := PriceFilter(max)[|FilterPrefix|..];
      AllDigits(cap) && DigitsValue(cap) as real <= max < DigitsValue(cap) as real + 1.0
  {
    var n := Truncate(max);
    var t := PriceFilter(max);
    assert t[|FilterPrefix|..] == NatToString(n);
    NatToStringRoundTrip(n);
  }

  /** `search`: the request is sent, at most `limit` results are examined
      and any error yields no products. */
  method Search(r: UserRequirements, limit: nat, fetch: ShoppingRequest -> ShoppingResponse, digest: string -> string)
    returns (products: seq<Product>)
    ensures products == SearchResults(fetch(Request(r)), r, limit, digest)
  {
    var query := BuildSearchQuery(r);
    var tbs := None;
    if r.budget.Some? {
      tbs := Some(PriceFilter(r.budget.value.max));
    }
    var response := fetch(ShoppingRequest(query, ResultsAsked, tbs));
    if response.Failed? {
      products := [];
    } else {
      products := CollectResults(response.items, r, limit, digest);
    }
  }
}
