/** The analyzer (agents/analyzer.py): the product summary handed to the
    language model, the choice between its report, the no-products report
    and the fallback report, and the fallback's ranking of the top five.
    The model's reply (or its failure) is a function of the summary; the
    number formats `:.2f` and `:.1f` are the parameters `fmt2` and `fmt1`,
    and the rendered requirements are the text `readable`. */
module Analyzer {
  import opened Wrappers
  import opened Strings
  import opened Dicts
  import opened Requirements
  import opened Products

  // ---------------------------------------------------------------------
  // The fallback ranking

  /** The sort key `(average rating, -best price)`. */
  type RankKey = (real, real)

  /** With `reverse=True`, a key comes first when its rating is higher, or
      the ratings are equal and its price is lower. */
  predicate RanksBefore(a: RankKey, b: RankKey) {
    a.0 > b.0 || (a.0 == b.0 && a.1 < b.1)
  }

  /** The key of a product: its average rating and its best price (0 when
      nothing is in stock). */
  function KeyOf(p: Product): RankKey {
    (AverageRating(p), GetBestPrice(p).1)
  }

  predicate Sorted<T>(s: seq<T>, key: T -> RankKey) {
    forall i, j :: 0 <= i < j < |s| ==> !RanksBefore(key(s[j]), key(s[i]))
  }

  /** Inserts `x` before the first element it ranks before, so after every
      element it ties with. */
  function Insert<T>(x: T, s: seq<T>, key: T -> RankKey): (r: seq<T>)
    ensures multiset(r) == multiset(s) + multiset{x}
  {
    if s == [] then [x]
    else if RanksBefore(key(x), key(s[0])) then [x] + s
    else
      assert s == [s[0]] + s[1..];
      [s[0]] + Insert(x, s[1..], key)
  }

  lemma {:induction false} InsertSorted<T>(x: T, s: seq<T>, key: T -> RankKey)
    requires Sorted(s, key)
    ensures Sorted(Insert(x, s, key), key)
  {
    if s != [] && !RanksBefore(key(x), key(s[0])) {
      var rest := Insert(x, s[1..], key);
      InsertSorted(x, s[1..], key);
      var r := [s[0]] + rest;
      forall j | 0 < j < |r|
        ensures !RanksBefore(key(r[j]), key(s[0]))
      {
        assert r[j] in multiset(rest);
        assert r[j] == x || r[j] in multiset(s[1..]);
        if r[j] != x {
          var k :| 0 <= k < |s[1..]| && s[1..][k] == r[j];
          assert s[k + 1] == r[j];
        }
      }
    }
  }

  /** `sorted(..., key=..., reverse=True)`: the stable sort, built by
      inserting each element behind the earlier ones it ties with. */
  function Rank<T>(xs: seq<T>, key: T -> RankKey): (r: seq<T>)
    ensures multiset(r) == multiset(xs)
    ensures Sorted(r, key)
  {
    if xs == [] then []
    else
      var init := xs[..|xs| - 1];
      var r := Rank(init, key);
      InsertSorted(xs[|xs| - 1], r, key);
      assert xs == init + [xs[|xs| - 1]];
      Insert(xs[|xs| - 1], r, key)
  }

  /** In a sorted sequence, an element that ranks before another comes
      earlier. */
  lemma SortedEarlier<T>(s: seq<T>, key: T -> RankKey, i: nat, j: nat)
    requires Sorted(s, key) && i < |s| && j < |s|
    requires RanksBefore(key(s[j]), key(s[i]))
    ensures j < i
  {
  }

  /** The number of products the fallback report shows. */
  const TopCount: nat := 5

  /** The five best-ranked products. */
  function TopProducts(products: seq<Product>): (top: seq<Product>)
    ensures |top| == if |products| < TopCount then |products| else TopCount
    ensures top == Rank(products, KeyOf)[..|top|]
  {
    var ranked := Rank(products, KeyOf);
    assert |ranked| == |multiset(ranked)| == |products|;
    Prefix(ranked, TopCount)
  }

  /** No product is left out of the top five while one it ranks before is
      in it: a product of the input that ranks before the `i`-th shown
      product is shown earlier. */
  lemma TopProductsAreBest(products: seq<Product>, p: Product, i: nat)
    requires p in products && i < |TopProducts(products)|
    requires RanksBefore(KeyOf(p), KeyOf(TopProducts(products)[i]))
    ensures p in TopProducts(products)[..i]
  {
    var ranked := Rank(products, KeyOf);
    assert p in multiset(ranked);
    var j :| 0 <= j < |ranked| && ranked[j] == p;
    assert ranked[i] == TopProducts(products)[i];
    SortedEarlier(ranked, KeyOf, i, j);
    assert TopProducts(products)[..i][j] == p;
  }

  /** Every shown product is one of the input, each shown as often as it
      occurs at most. */
  lemma TopProductsFromInput(products: seq<Product>)
    ensures multiset(TopProducts(products)) <= multiset(products)
  {
    var ranked := Rank(products, KeyOf);
    var top := TopProducts(products);
    assert ranked == top + ranked[|top|..];
  }

  // ---------------------------------------------------------------------
  // Numbered lists

  /** The line groups of the elements of a list, the `k`-th numbered `k`
      (counting from 1), one after the other. */
  function Numbered<T>(ps: seq<T>, f: (nat, T) -> seq<string>): seq<string> {
    if ps == [] then []
    else Numbered(ps[..|ps| - 1], f) + f(|ps|, ps[|ps| - 1])
  }

  /** The groups of the first elements open the groups of all. */
  lemma {:induction false} NumberedPrefix<T>(ps: seq<T>, m: nat, f: (nat, T) -> seq<string>)
    requires m <= |ps|
    ensures Numbered(ps[..m], f) <= Numbered(ps, f)
    decreases |ps| - m
  {
    if m < |ps| {
      NumberedPrefix(ps, m + 1, f);
      assert ps[..m + 1][..m] == ps[..m];
    } else {
      assert ps[..m] == ps;
    }
  }

  // ---------------------------------------------------------------------
  // The fallback report

  /** `- [Retailer](url)` per link. */
  function LinkRows(urls: Dict<string, string>): (rows: seq<string>)
    ensures |rows| == |urls|
    ensures forall i :: 0 <= i < |urls| ==> rows[i] == "- [" + TitleCase(urls[i].0) + "](" + urls[i].1 + ")"
  {
    seq(|urls|, i requires 0 <= i < |urls| => "- [" + TitleCase(urls[i].0) + "](" + urls[i].1 + ")")
  }

  /** The entry of the `n`-th recommendation. */
  function Entry(n: nat, p: Product, fmt2: real -> string, fmt1: real -> string): seq<string> {
    var best := GetBestPrice(p);
    ["### " + NatToString(n) + ". " + p.name,
     "**Best Price:** $" + fmt2(best.1) + " at " + TitleCase(best.0),
     "**Rating:** " + fmt1(AverageRating(p)) + "/5",
     "",
     "**Where to Buy:**"]
    + LinkRows(RetailerUrls(p.pricing)) + [""]
  }

  /** The entry lines of each recommendation. */
  function EntryOf(fmt2: real -> string, fmt1: real -> string): (nat, Product) -> seq<string> {
    (n: nat, p: Product) => Entry(n, p, fmt2, fmt1)
  }

  /** The entries of a list of recommendations, numbered from 1. */
  function Entries(ps: seq<Product>, fmt2: real -> string, fmt1: real -> string): seq<string> {
    Numbered(ps, EntryOf(fmt2, fmt1))
  }

  function FallbackHeader(readable: string): seq<string> {
    ["# Product Research Report", "", "## Your Requirements", readable, "", "## Top 5 Recommendations", ""]
  }

  /** The lines of `_generate_fallback_report`. */
  function FallbackLines(products: seq<Product>, readable: string, fmt2: real -> string, fmt1: real -> string): seq<string> {
    FallbackHeader(readable) + Entries(TopProducts(products), fmt2, fmt1)
  }

  /** Recommendation `k + 1` of the report is the entry of the `k`-th best
      product, after the entries of the better ones. */
  lemma EntryShown(ps: seq<Product>, k: nat, fmt2: real -> string, fmt1: real -> string)
    requires k < |ps|
    ensures Entries(ps[..k], fmt2, fmt1) + Entry(k + 1, ps[k], fmt2, fmt1) <= Entries(ps, fmt2, fmt1)
  {
    var f := EntryOf(fmt2, fmt1);
    var pre := ps[..k + 1];
    NumberedPrefix(ps, k + 1, f);
    assert pre[..|pre| - 1] == ps[..k];
    assert Numbered(pre, f) == Numbered(ps[..k], f) + f(k + 1, ps[k]);
  }

  /** The entry lines of one product: the links are written one per loop
      step. */
  method WriteEntry(n: nat, p: Product, fmt2: real -> string, fmt1: real -> string) returns (lines: seq<string>)
    ensures lines == Entry(n, p, fmt2, fmt1)
  {
    var best := GetBestPrice(p);
    lines := ["### " + NatToString(n) + ". " + p.name,
              "**Best Price:** $" + fmt2(best.1) + " at " + TitleCase(best.0),
              "**Rating:** " + fmt1(AverageRating(p)) + "/5",
              "",
              "**Where to Buy:**"];
    ghost var head := lines;
    var urls := RetailerUrls(p.pricing);
    for i := 0 to |urls|
      invariant lines == head + LinkRows(urls[..i])
    {
      assert LinkRows(urls[..i + 1]) == LinkRows(urls[..i]) + ["- [" + TitleCase(urls[i].0) + "](" + urls[i].1 + ")"];
      lines := lines + ["- [" + TitleCase(urls[i].0) + "](" + urls[i].1 + ")"];
    }
    assert urls[..|urls|] == urls;
    lines := lines + [""];
  }

  /** `_generate_fallback_report`. */
  method FallbackReport(products: seq<Product>, readable: string, fmt2: real -> string, fmt1: real -> string)
    returns (report: string)
    ensures report == Join(FallbackLines(products, readable, fmt2, fmt1), "\n")
  {
    var top := TopProducts(products);
    var entries := WriteEntries(top, fmt2, fmt1);
    report := Join(FallbackHeader(readable) + entries, "\n");
  }

  /** The entries of the recommendations, one loop step each. */
  method WriteEntries(top: seq<Product>, fmt2: real -> string, fmt1: real -> string) returns (lines: seq<string>)
    ensures lines == Entries(top, fmt2, fmt1)
  {
    lines := [];
    for i := 0 to |top|
      invariant lines == Entries(top[..i], fmt2, fmt1)
    {
      assert top[..i + 1][..i] == top[..i];
      var entry := WriteEntry(i + 1, top[i], fmt2, fmt1);
      assert entry == EntryOf(fmt2, fmt1)(i + 1, top[i]);
      lines := lines + entry;
    }
    assert top[..|top|] == top;
  }

  // ---------------------------------------------------------------------
  // The product summary

  /** A line of sixty '='. */
  const Rule: string := "============================================================"

  function PriceRow(entry: (string, PriceInfo), fmt2: real -> string): string {
    "  " + TitleCase(entry.0) + ": $" + fmt2(entry.1.currentPrice)
    + " (" + (if entry.1.inStock then "In Stock" else "Out of Stock") + ")"
  }

  function PriceRows(d: Pricing, fmt2: real -> string): (rows: seq<string>)
    ensures |rows| == |d|
    ensures forall i :: 0 <= i < |d| ==> rows[i] == PriceRow(d[i], fmt2)
  {
    seq(|d|, i requires 0 <= i < |d| => PriceRow(d[i], fmt2))
  }

  function RatingRow(entry: (string, ReviewSummary), fmt1: real -> string): string {
    "  " + TitleCase(entry.0) + ": " + fmt1(entry.1.averageRating) + "/5 ("
    + IntToString(entry.1.totalReviews) + " reviews)"
  }

  /** A row per retailer with at least one review. */
  function RatingRows(d: Reviews, fmt1: real -> string): seq<string> {
    if d == [] then []
    else
      var before := RatingRows(d[..|d| - 1], fmt1);
      if d[|d| - 1].1.totalReviews > 0 then before + [RatingRow(d[|d| - 1], fmt1)] else before
  }

  function SpecRow(entry: (string, SpecValue)): string {
    "  " + entry.0 + ": " + entry.1.Render()
  }

  /** A row per specification, except the "asin" identifier. */
  function SpecRows(specs: Specs): seq<string> {
    if specs == [] then []
    else
      var before := SpecRows(specs[..|specs| - 1]);
      if specs[|specs| - 1].0 != "asin" then before + [SpecRow(specs[|specs| - 1])] else before
  }

  /** The number of characters of a link that are shown. */
  const UrlShown: nat := 80

  function UrlRows(urls: Dict<string, string>): (rows: seq<string>)
    ensures |rows| == |urls|
    ensures forall i :: 0 <= i < |urls| ==> rows[i] == "  " + TitleCase(urls[i].0) + ": " + Prefix(urls[i].1, UrlShown) + "..."
  {
    seq(|urls|, i requires 0 <= i < |urls| => "  " + TitleCase(urls[i].0) + ": " + Prefix(urls[i].1, UrlShown) + "...")
  }

  /** The best-price row, when some retailer is named. */
  function BestRow(p: Product, fmt2: real -> string): seq<string> {
    var best := GetBestPrice(p);
    if best.0 != [] then ["  Best Price: $" + fmt2(best.1) + " at " + TitleCase(best.0)] else []
  }

  /** The average-rating row, when the average is positive. */
  function AverageRow(p: Product, fmt1: real -> string): seq<string> {
    if AverageRating(p) > 0.0 then ["  Average Rating: " + fmt1(AverageRating(p)) + "/5"] else []
  }

  /** The heading of the `n`-th product, with its model number when known. */
  function Heading(n: nat, p: Product): seq<string> {
    ["\n" + Rule, "PRODUCT " + NatToString(n) + ": " + p.name, Rule, "Manufacturer: " + p.manufacturer]
    + (if p.modelNumber.Some? && p.modelNumber.value != [] then ["Model: " + p.modelNumber.value] else [])
  }

  function PricingSection(p: Product, fmt2: real -> string): seq<string> {
    ["\nPRICING:"] + PriceRows(p.pricing, fmt2) + BestRow(p, fmt2)
  }

  function RatingSection(p: Product, fmt1: real -> string): seq<string> {
    ["\nRATINGS:"] + RatingRows(p.reviews, fmt1) + AverageRow(p, fmt1)
  }

  /** The specifications, with their header only when there are some. */
  function SpecSection(p: Product): seq<string> {
    if p.specifications != [] then ["\nSPECIFICATIONS:"] + SpecRows(p.specifications) else []
  }

  function LinkSection(p: Product): seq<string> {
    ["\nWHERE TO BUY:"] + UrlRows(RetailerUrls(p.pricing))
  }

  /** The block describing the `n`-th product. */
  function Block(n: nat, p: Product, fmt2: real -> string, fmt1: real -> string): seq<string> {
    Heading(n, p) + PricingSection(p, fmt2) + RatingSection(p, fmt1) + SpecSection(p) + LinkSection(p)
  }

  /** The block of each product. */
  function BlockOf(fmt2: real -> string, fmt1: real -> string): (nat, Product) -> seq<string> {
    (n: nat, p: Product) => Block(n, p, fmt2, fmt1)
  }

  /** The blocks of all products, numbered from 1. */
  function DataLines(ps: seq<Product>, fmt2: real -> string, fmt1: real -> string): seq<string> {
    Numbered(ps, BlockOf(fmt2, fmt1))
  }

  /** The text `_prepare_product_data` returns. */
  function ProductData(ps: seq<Product>, fmt2: real -> string, fmt1: real -> string): string {
    Join(DataLines(ps, fmt2, fmt1), "\n")
  }

  /** The rating rows are the ratings the average is taken over: one per
      retailer with at least one review. */
  lemma {:induction false} RatingRowsCount(d: Reviews, fmt1: real -> string)
    ensures |RatingRows(d, fmt1)| == RatedCount(d)
  {
    if d != [] {
      var init := d[..|d| - 1];
      RatingRowsCount(init, fmt1);
      RatedCountAppend(init, [d[|d| - 1]]);
      assert init + [d[|d| - 1]] == d;
    }
  }

  lemma {:induction false} RatedCountAppend(a: Reviews, b: Reviews)
    ensures RatedCount(a + b) == RatedCount(a) + RatedCount(b)
  {
    if a == [] {
      assert a + b == b;
    } else {
      RatedCountAppend(a[1..], b);
      assert (a + b)[1..] == a[1..] + b;
    }
  }

  /** The specification rows are exactly the rows of the entries other
      than "asin". */
  lemma {:induction false} SpecRowsListed(specs: Specs, row: string)
    ensures row in SpecRows(specs) <==>
      exists j :: 0 <= j < |specs| && specs[j].0 != "asin" && SpecRow(specs[j]) == row
  {
    if specs != [] {
      var init := specs[..|specs| - 1];
      SpecRowsListed(init, row);
      if row in SpecRows(init) {
        var j :| 0 <= j < |init| && init[j].0 != "asin" && SpecRow(init[j]) == row;
        assert specs[j] == init[j];
      }
      if exists j :: 0 <= j < |specs| && specs[j].0 != "asin" && SpecRow(specs[j]) == row {
        var j :| 0 <= j < |specs| && specs[j].0 != "asin" && SpecRow(specs[j]) == row;
        if j < |init| {
          assert init[j] == specs[j];
        }
      }
    }
  }

  /** The rows of one product, with a loop per dictionary. */
  method RatingRowsOf(d: Reviews, fmt1: real -> string) returns (rows: seq<string>)
    ensures rows == RatingRows(d, fmt1)
  {
    rows := [];
    for i := 0 to |d|
      invariant rows == RatingRows(d[..i], fmt1)
    {
      assert d[..i + 1][..i] == d[..i];
      if d[i].1.totalReviews > 0 {
        rows := rows + [RatingRow(d[i], fmt1)];
      }
    }
    assert d[..|d|] == d;
  }

  method SpecRowsOf(specs: Specs) returns (rows: seq<string>)
    ensures rows == SpecRows(specs)
  {
    rows := [];
    for i := 0 to |specs|
      invariant rows == SpecRows(specs[..i])
    {
      assert specs[..i + 1][..i] == specs[..i];
      if specs[i].0 != "asin" {
        rows := rows + [SpecRow(specs[i])];
      }
    }
    assert specs[..|specs|] == specs;
  }

  method PriceRowsOf(d: Pricing, fmt2: real -> string) returns (rows: seq<string>)
    ensures rows == PriceRows(d, fmt2)
  {
    rows := [];
    for i := 0 to |d|
      invariant rows == PriceRows(d[..i], fmt2)
    {
      assert PriceRows(d[..i + 1], fmt2) == PriceRows(d[..i], fmt2) + [PriceRow(d[i], fmt2)];
      rows := rows + [PriceRow(d[i], fmt2)];
    }
    assert d[..|d|] == d;
  }

  method UrlRowsOf(urls: Dict<string, string>) returns (rows: seq<string>)
    ensures rows == UrlRows(urls)
  {
    rows := [];
    for i := 0 to |urls|
      invariant rows == UrlRows(urls[..i])
    {
      var row := "  " + TitleCase(urls[i].0) + ": " + Prefix(urls[i].1, UrlShown) + "...";
      assert UrlRows(urls[..i + 1]) == UrlRows(urls[..i]) + [row];
      rows := rows + [row];
    }
    assert urls[..|urls|] == urls;
  }

  /** The block of the `n`-th product. */
  method DescribeProduct(n: nat, p: Product, fmt2: real -> string, fmt1: real -> string) returns (lines: seq<string>)
    ensures lines == Block(n, p, fmt2, fmt1)
  {
    lines := ["\n" + Rule, "PRODUCT " + NatToString(n) + ": " + p.name, Rule, "Manufacturer: " + p.manufacturer];
    if p.modelNumber.Some? && p.modelNumber.value != [] {
      lines := lines + ["Model: " + p.modelNumber.value];
    }
    assert lines == Heading(n, p);
    var prices := PriceRowsOf(p.pricing, fmt2);
    lines := lines + (["\nPRICING:"] + prices + BestRow(p, fmt2));
    var ratings := RatingRowsOf(p.reviews, fmt1);
    lines := lines + (["\nRATINGS:"] + ratings + AverageRow(p, fmt1));
    if p.specifications != [] {
      var specs := SpecRowsOf(p.specifications);
      lines := lines + (["\nSPECIFICATIONS:"] + specs);
    }
    var urls := UrlRowsOf(RetailerUrls(p.pricing));
    lines := lines + (["\nWHERE TO BUY:"] + urls);
  }

  /** `_prepare_product_data`. */
  method PrepareProductData(products: seq<Product>, fmt2: real -> string, fmt1: real -> string) returns (data: string)
    ensures data == ProductData(products, fmt2, fmt1)
  {
    var lines := DescribeProducts(products, fmt2, fmt1);
    data := Join(lines, "\n");
  }

  /** The blocks of all products, one loop step each. */
  method DescribeProducts(products: seq<Product>, fmt2: real -> string, fmt1: real -> string) returns (lines: seq<string>)
    ensures lines == DataLines(products, fmt2, fmt1)
  {
    lines := [];
    for i := 0 to |products|
      invariant lines == DataLines(products[..i], fmt2, fmt1)
    {
      assert products[..i + 1][..i] == products[..i];
      var block := DescribeProduct(i + 1, products[i], fmt2, fmt1);
      assert block == BlockOf(fmt2, fmt1)(i + 1, products[i]);
      lines := lines + block;
    }
    assert products[..|products|] == products;
  }

  // ---------------------------------------------------------------------
  // The report

  /** The report returned: the fixed no-products text (its wording is not
      modelled), the language model's report, or the fallback report. */
  datatype Report = NoProductsReport | LlmReport(text: string) | Fallback(text: string)

  /** The report for a list of products. */
  function ReportOf(products: seq<Product>, readable: string, analyze: string -> Option<string>,
                    fmt2: real -> string, fmt1: real -> string): Report {
    if products == [] then NoProductsReport
    else
      match analyze(ProductData(products, fmt2, fmt1))
      case Some(text) => LlmReport(text)
      case None => Fallback(Join(FallbackLines(products, readable, fmt2, fmt1), "\n"))
  }

  /** `analyze_and_report`: `analyze` is the language model's answer to the
      prompt built from the product summary, `None` when the call raised. */
  method AnalyzeAndReport(products: seq<Product>, readable: string, analyze: string -> Option<string>,
                          fmt2: real -> string, fmt1: real -> string)
    returns (report: Report)
    ensures report == ReportOf(products, readable, analyze, fmt2, fmt1)
    ensures products == [] <==> report == NoProductsReport
    ensures products != [] ==>
      match analyze(ProductData(products, fmt2, fmt1))
      case Some(text) => report == LlmReport(text)
      case None => report == Fallback(Join(FallbackLines(products, readable, fmt2, fmt1), "\n"))
  {
    if products == [] {
      return NoProductsReport;
    }
    var data := PrepareProductData(products, fmt2, fmt1);
    var reply := analyze(data);
    if reply.Some? {
      return LlmReport(reply.value);
    }
    var text := FallbackReport(products, readable, fmt2, fmt1);
    report := Fallback(text);
  }
}
