/** The web-search researcher (agents/researcher_websearch.py): one LLM
    search per retailer, the decoded reply turned into products.  The LLM
    is a function from the retailer to its reply (`None` when the call
    raises), `json.loads` a partial function and `str(float)` a function
    passed in. */
module WebSearchResearcher {
  import opened Wrappers
  import opened Strings
  import opened Dicts
  import opened Requirements
  import opened Products
  import opened Candidates
  import Llm

  /** The retailers searched, in this order. */
  const Retailers: seq<string> := ["amazon", "walmart", "bestbuy"]
  /** The query looks at the first two specifications. */
  const QuerySpecs: nat := 2
  /** The product id keeps the first 20 characters of the name. */
  const IdNameLimit: nat := 20

  // ---------------------------------------------------------------------
  // The search query

  /** The string specification values, in order. */
  function StringTexts(specs: Specs): (texts: seq<string>)
    ensures |texts| <= |specs|
    ensures forall k :: 0 <= k < |texts| ==> exists j :: 0 <= j < |specs| && specs[j].1 == Str(texts[k])
  {
    if specs == [] then []
    else
      var last := specs[|specs| - 1].1;
      var before := StringTexts(specs[..|specs| - 1]);
      if last.Str? then before + [last.s] else before
  }

  /** "site:<retailer>.com" */
  function SiteFilter(retailer: string): string {
    "site:" + retailer + ".com"
  }

  /** "under $<max>" when there is a budget. */
  function BudgetHint(r: UserRequirements, showReal: real -> string): seq<string> {
    if r.budget.Some? then ["under $" + showReal(r.budget.value.max)] else []
  }

  /** The parts of the query, in order. */
  function WebQueryParts(retailer: string, r: UserRequirements, showReal: real -> string): seq<string> {
    [r.productCategory, SiteFilter(retailer)] + BudgetHint(r, showReal)
      + StringTexts(Prefix(r.mustHaveSpecs, QuerySpecs))
  }

  /** `_build_search_query` */
  method BuildSearchQuery(retailer: string, r: UserRequirements, showReal: real -> string) returns (query: string)
    ensures query == Join(WebQueryParts(retailer, r, showReal), " ")
  {
    var parts := [r.productCategory, SiteFilter(retailer)];
    if r.budget.Some? {
      parts := parts + ["under $" + showReal(r.budget.value.max)];
    }
    var specs := Prefix(r.mustHaveSpecs, QuerySpecs);
    ghost var head := parts;
    for i := 0 to |specs|
      invariant parts == head + StringTexts(specs[..i])
    {
      assert specs[..i + 1][..i] == specs[..i];
      if specs[i].1.Str? {
        parts := parts + [specs[i].1.s];
      }
    }
    assert specs[..|specs|] == specs;
    query := Join(parts, " ");
  }

  /** The query is the category, the site filter, the budget hint when
      there is a budget, and then at most two string specification values,
      each after a space. */
  lemma WebQueryShape(retailer: string, r: UserRequirements, showReal: real -> string)
    ensures Join(WebQueryParts(retailer, r, showReal), " ")
      == r.productCategory + " " + SiteFilter(retailer) + Separated(BudgetHint(r, showReal), " ")
         + Separated(StringTexts(Prefix(r.mustHaveSpecs, QuerySpecs)), " ")
    ensures |StringTexts(Prefix(r.mustHaveSpecs, QuerySpecs))| <= QuerySpecs
  {
    var c := r.productCategory;
    var site := SiteFilter(retailer);
    var hint := BudgetHint(r, showReal);
    var texts := StringTexts(Prefix(r.mustHaveSpecs, QuerySpecs));
    assert WebQueryParts(retailer, r, showReal) == [c, site] + (hint + texts);
    JoinTwoAndMore(c, site, hint + texts, " ");
    SeparatedAppend(hint, texts, " ");
  }

  // ---------------------------------------------------------------------
  // One item of the reply

  /** An entry of the decoded product list; `None` or `Missing` when the
      key is absent. */
  datatype Item = Item(
    name: Option<string>,
    price: Field<real>,
    rating: Field<real>,
    reviewCount: Field<int>,
    features: Option<SpecValue>,
    url: Option<string>)

  /** The product id: the retailer, '_' and the first 20 characters of the
      name (or "unknown") with every space made '_'. */
  function ProductId(retailer: string, name: Option<string>): string {
    retailer + "_" + Prefix(Replace(name.GetOr("unknown"), " ", "_"), IdNameLimit)
  }

  /** The id holds no space after the retailer, and each of its characters
      is the name's character at that place, a space turned into '_'. */
  lemma ProductIdShape(retailer: string, name: Option<string>)
    ensures var id := ProductId(retailer, name); var n := name.GetOr("unknown");
      && StartsWith(id, retailer + "_")
      && |id| == |retailer| + 1 + (if |n| <= IdNameLimit then |n| else IdNameLimit)
      && forall k :: 0 <= k < |id| - |retailer| - 1 ==>
           id[|retailer| + 1 + k] == (if n[k] == ' ' then '_' else n[k])
  {
    var n := name.GetOr("unknown");
    ReplaceCharAt(n, ' ', '_');
    var id := ProductId(retailer, name);
    var tail := Prefix(Replace(n, " ", "_"), IdNameLimit);
    assert id == (retailer + "_") + tail;
    forall k | 0 <= k < |id| - |retailer| - 1
      ensures id[|retailer| + 1 + k] == (if n[k] == ' ' then '_' else n[k])
    {
      assert id[|retailer| + 1 + k] == tail[k];
    }
  }

  /** `_convert_to_product`: `None` wherever it raises: a name made only of
      whitespace, a price, rating or review count that does not convert, a
      negative price or a rating outside [0, 5].  Neither a zero price nor
      the budget is checked. */
  function ConvertToProduct(item: Item, retailer: string, r: UserRequirements): (p: Option<Product>)
    ensures p.Some? ==> SingleRetailer(p.value) && p.value.pricing[0].0 == retailer
  {
    var name := item.name.GetOr("");
    match (item.price.Convert(0.0), item.rating.Convert(0.0), item.reviewCount.Convert(0))
    case (Some(price), Some(rating), Some(count)) =>
      (match (Manufacturer(name), SingleReview(retailer, rating, count))
       case (Some(manufacturer), Some(reviews)) =>
         if price < 0.0 then None
         else
           Some(Product(
             ProductId(retailer, item.name), name, manufacturer, None, r.productCategory,
             [("features", item.features.GetOr(Other("[]")))],
             SingleOffer(retailer, price, true, item.url.GetOr("")),
             reviews, None, None))
       case _ => None)
    case _ => None
  }

  /** A converted item is in stock at the retailer, under the item's link,
      with the retailer-and-name id, the item's name, the category of the
      requirements and the first word of the name as manufacturer. */
  lemma ConvertedShape(item: Item, retailer: string, r: UserRequirements)
    requires ConvertToProduct(item, retailer, r).Some?
    ensures var p := ConvertToProduct(item, retailer, r).value;
      && p.pricing[0].1.inStock && p.pricing[0].1.url == item.url.GetOr("")
      && p.id == ProductId(retailer, item.name) && p.name == item.name.GetOr("")
      && p.category == r.productCategory
      && Manufacturer(p.name) == Some(p.manufacturer)
  {
  }

  /** Exactly the items that make a conversion or a validator raise are
      refused. */
  lemma ConvertRefuses(item: Item, retailer: string, r: UserRequirements)
    ensures var name := item.name.GetOr("");
      ConvertToProduct(item, retailer, r).None? <==>
        || (name != [] && IsBlank(name))
        || item.price.Unconvertible? || item.rating.Unconvertible? || item.reviewCount.Unconvertible?
        || item.price.Convert(0.0).GetOr(0.0) < 0.0
        || !(0.0 <= item.rating.Convert(0.0).GetOr(0.0) <= 5.0)
  {
  }

  /** The budget plays no part: only the category of the requirements is
      read. */
  lemma ConvertIgnoresBudget(item: Item, retailer: string, r: UserRequirements, r': UserRequirements)
    requires r.productCategory == r'.productCategory
    ensures ConvertToProduct(item, retailer, r) == ConvertToProduct(item, retailer, r')
  {
  }

  // ---------------------------------------------------------------------
  // One retailer

  /** `_convert_to_product` for one retailer and one set of requirements. */
  function Converter(retailer: string, r: UserRequirements): Item -> Option<Product> {
    item => ConvertToProduct(item, retailer, r)
  }

  /** Every element converted, or `None` as soon as one conversion fails:
      the handler of `_search_retailer` encloses the whole loop. */
  function AllOrNothing<X, Y>(xs: seq<X>, f: X -> Option<Y>): (ys: Option<seq<Y>>)
    ensures ys.Some? ==> |ys.value| == |xs|
  {
    if xs == [] then Some([])
    else
      match AllOrNothing(xs[..|xs| - 1], f)
      case None => None
      case Some(before) =>
        match f(xs[|xs| - 1])
        case None => None
        case Some(y) => Some(before + [y])
  }

  /** A converted list holds the conversion of each element at its place. */
  lemma {:induction false} AllOrNothingContents<X, Y>(xs: seq<X>, f: X -> Option<Y>)
    requires AllOrNothing(xs, f).Some?
    ensures forall k :: 0 <= k < |xs| ==> f(xs[k]) == Some(AllOrNothing(xs, f).value[k])
  {
    if xs != [] {
      var init := xs[..|xs| - 1];
      AllOrNothingContents(init, f);
      assert forall k :: 0 <= k < |init| ==> xs[k] == init[k];
    }
  }

  /** The conversion of a list fails exactly when one of its elements fails. */
  lemma {:induction false} AllOrNothingRefuses<X, Y>(xs: seq<X>, f: X -> Option<Y>)
    ensures AllOrNothing(xs, f).None? <==> exists k :: 0 <= k < |xs| && f(xs[k]).None?
  {
    if xs != [] {
      var init := xs[..|xs| - 1];
      AllOrNothingRefuses(init, f);
      if AllOrNothing(init, f).None? {
        var k :| 0 <= k < |init| && f(init[k]).None?;
        assert xs[k] == init[k];
      }
      if exists k :: 0 <= k < |xs| && f(xs[k]).None? {
        var k :| 0 <= k < |xs| && f(xs[k]).None?;
        if k < |init| {
          assert xs[k] == init[k];
        }
      }
    }
  }

  /** What the decoded reply is: a list, an object whose `products` entry
      is a list or is absent, or any other JSON value. */
  datatype Document = Array(items: seq<Item>) | Object(products: Option<seq<Item>>) | Scalar

  /** The list a decoded reply provides: the list itself, an object's
      `products`, or nothing. */
  function ProductList(doc: Document): seq<Item> {
    match doc
    case Array(items) => items
    case Object(products) => products.GetOr([])
    case Scalar => []
  }

  /** `_search_retailer`: no products when the LLM call raises, when its
      reply does not decode, or when one item does not convert. */
  function RetailerResults(retailer: string, r: UserRequirements, reply: Option<string>, parse: string -> Option<Document>): (ps: seq<Product>)
    ensures reply.None? ==> ps == []
    ensures forall k :: 0 <= k < |ps| ==> SingleRetailer(ps[k]) && ps[k].pricing[0].0 == retailer
  {
    match reply
    case None => []
    case Some(text) => DecodedResults(retailer, r, Llm.ExtractedJson(text, parse))
  }

  /** The products of a decoded reply: every item converted, or none. */
  function DecodedResults(retailer: string, r: UserRequirements, decoded: Result<Document, Llm.ParseFailure>): (ps: seq<Product>)
    ensures forall k :: 0 <= k < |ps| ==> SingleRetailer(ps[k]) && ps[k].pricing[0].0 == retailer
  {
    match decoded
    case Err(_) => []
    case Ok(doc) =>
      var items := ProductList(doc);
      match AllOrNothing(items, Converter(retailer, r))
      case None => []
      case Some(ps) =>
        AllOrNothingContents(items, Converter(retailer, r));
        ps
  }

  /** The items are converted one after the other; the first that raises
      abandons the retailer. */
  method SearchRetailer(retailer: string, r: UserRequirements, reply: Option<string>, parse: string -> Option<Document>)
    returns (products: seq<Product>)
    ensures products == RetailerResults(retailer, r, reply, parse)
  {
    if reply.None? {
      return [];
    }
    var result := Llm.ExtractJson(reply.value, parse);
    products := ConvertDecoded(retailer, r, result);
  }

  /** The products of a decoded reply, converted item by item. */
  method ConvertDecoded(retailer: string, r: UserRequirements, decoded: Result<Document, Llm.ParseFailure>)
    returns (products: seq<Product>)
    ensures products == DecodedResults(retailer, r, decoded)
  {
    if decoded.Err? {
      return [];
    }
    var converted := ConvertItems(ProductList(decoded.value), Converter(retailer, r));
    products := converted.GetOr([]);
  }

  /** The loop over the items: the first that raises abandons the rest. */
  method ConvertItems<X, Y>(items: seq<X>, convert: X -> Option<Y>) returns (ps: Option<seq<Y>>)
    ensures ps == AllOrNothing(items, convert)
  {
    var products := [];
    for i := 0 to |items|
      invariant AllOrNothing(items[..i], convert) == Some(products)
    {
      assert items[..i + 1][..i] == items[..i];
      var product := convert(items[i]);
      if product.None? {
        AllOrNothingRefuses(items, convert);
        return None;
      }
      products := products + [product.value];
    }
    assert items[..|items|] == items;
    ps := Some(products);
  }

  // ---------------------------------------------------------------------
  // Every retailer

  /** One retailer's search, as a function of the retailer. */
  function Searcher(r: UserRequirements, ask: string -> Option<string>, parse: string -> Option<Document>): string -> seq<Product> {
    (x: string) => RetailerResults(x, r, ask(x), parse)
  }

  /** The products of the given retailers, one retailer after the other. */
  function AllResults(retailers: seq<string>, r: UserRequirements, ask: string -> Option<string>, parse: string -> Option<Document>): (ps: seq<Product>)
    ensures forall k :: 0 <= k < |ps| ==> SingleRetailer(ps[k]) && ps[k].pricing[0].0 in retailers
  {
    var ps := Concat(retailers, Searcher(r, ask, parse));
    forall k | 0 <= k < |ps|
      ensures SingleRetailer(ps[k]) && ps[k].pricing[0].0 in retailers
    {
      ConcatFrom(retailers, Searcher(r, ask, parse), k);
      var j :| 0 <= j < |retailers| && ps[k] in Searcher(r, ask, parse)(retailers[j]);
      var found := RetailerResults(retailers[j], r, ask(retailers[j]), parse);
      var i :| 0 <= i < |found| && found[i] == ps[k];
    }
    ps
  }

  /** `search` */
  method Search(r: UserRequirements, ask: string -> Option<string>, parse: string -> Option<Document>)
    returns (products: seq<Product>)
    ensures products == AllResults(Retailers, r, ask, parse)
  {
    products := SearchEach(Retailers, r, ask, parse);
  }

  /** The loop over the retailers, extending the list with each one's
      products. */
  method SearchEach(retailers: seq<string>, r: UserRequirements, ask: string -> Option<string>, parse: string -> Option<Document>)
    returns (products: seq<Product>)
    ensures products == AllResults(retailers, r, ask, parse)
  {
    products := [];
    for i := 0 to |retailers|
      invariant products == AllResults(retailers[..i], r, ask, parse)
    {
      assert retailers[..i + 1][..i] == retailers[..i];
      var found := SearchRetailer(retailers[i], r, ask(retailers[i]), parse);
      products := products + found;
    }
    assert retailers[..|retailers|] == retailers;
  }

  /** The products are Amazon's, then Walmart's, then Best Buy's. */
  lemma SearchOrder(r: UserRequirements, ask: string -> Option<string>, parse: string -> Option<Document>)
    ensures AllResults(Retailers, r, ask, parse)
      == RetailerResults("amazon", r, ask("amazon"), parse)
       + RetailerResults("walmart", r, ask("walmart"), parse)
       + RetailerResults("bestbuy", r, ask("bestbuy"), parse)
  {
    ConcatOfThree("amazon", "walmart", "bestbuy", Searcher(r, ask, parse));
  }
}
