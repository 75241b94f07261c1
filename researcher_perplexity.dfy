/** The Perplexity researcher (agents/researcher_perplexity.py): the JSON
    object is cut out of the model's reply, its items are filtered and
    turned into products.  The chat call is its reply (or its failure) and
    `json.loads` is a partial function passed in. */
module PerplexityResearcher {
  import opened Wrappers
  import opened Strings
  import opened Dicts
  import opened Requirements
  import opened Products
  import opened Candidates

  /** One entry of the reply's `products` list; `None` or `Missing` when the
      key is absent. */
  datatype Item = Item(
    name: Option<string>,
    price: Field<real>,
    retailer: Option<string>,
    url: Option<string>,
    rating: Field<real>,
    reviewCount: Field<int>,
    features: Option<SpecValue>,
    inStock: Option<bool>)

  /** What `json.loads` produced: an object, whose `products` key may be
      absent, or any other JSON value. */
  datatype Document = Listing(products: Option<seq<Item>>) | NotAnObject

  /** `_convert_to_product`: `None` for an empty name, a price that is not
      positive or is over the effective maximum, and wherever a conversion
      or a validator raises.  The retailer is lower-cased and defaults to
      "unknown"; the offer is in stock unless the item says otherwise.
      `digest` stands for the MD5 product id. */
  function ConvertToProduct(item: Item, r: UserRequirements, digest: string -> string): (p: Option<Product>)
    ensures p.Some? ==> AcceptedOffer(p.value, r) && p.value.name != []
    ensures p.Some? ==> p.value.name == item.name.GetOr("") && p.value.category == r.productCategory
    ensures p.Some? ==> p.value.pricing[0].0 == Lower(item.retailer.GetOr("unknown"))
    ensures p.Some? ==> p.value.pricing[0].1.inStock == item.inStock.GetOr(true)
  {
    var name := item.name.GetOr("");
    if name == [] then None
    else
      match item.price.Convert(0.0)
      case None => None
      case Some(price) =>
        if price <= 0.0 then None
        else if r.budget.Some? && price > r.budget.value.EffectiveMax() then None
        else
          var retailer := Lower(item.retailer.GetOr("unknown"));
          match (item.rating.Convert(0.0), item.reviewCount.Convert(0))
          case (Some(rating), Some(count)) =>
            (match (Manufacturer(name), SingleReview(retailer, rating, count))
             case (Some(manufacturer), Some(reviews)) =>
               Some(Product(
                 digest(name + retailer), name, manufacturer, None, r.productCategory,
                 [("features", item.features.GetOr(Other("[]")))],
                 SingleOffer(retailer, price, item.inStock.GetOr(true), item.url.GetOr("")),
                 reviews, None, None))
             case _ => None)
          case _ => None
  }

  /** An item with a name that is not blank, a price that converts and
      passes the price test, and a rating and review count that convert,
      the rating within [0, 5], becomes a product. */
  lemma ConvertAccepts(item: Item, r: UserRequirements, digest: string -> string)
    requires item.name.GetOr("") != [] && !IsBlank(item.name.GetOr(""))
    requires item.price.Convert(0.0).Some? && PriceAccepted(item.price.Convert(0.0).value, r)
    requires item.rating.Convert(0.0).Some? && 0.0 <= item.rating.Convert(0.0).value <= 5.0
    requires item.reviewCount.Convert(0).Some?
    ensures ConvertToProduct(item, r, digest).Some?
  {
  }

  /** Converting one item. */
  function Converter(r: UserRequirements, digest: string -> string): Item -> Option<Product> {
    (item: Item) => ConvertToProduct(item, r, digest)
  }

  /** The products of the items that convert, in item order. */
  function Converted(items: seq<Item>, r: UserRequirements, digest: string -> string): (ps: seq<Product>)
    ensures |ps| <= |items|
    ensures forall i :: 0 <= i < |ps| ==> AcceptedOffer(ps[i], r)
  {
    ConvertedOffers(items, r, digest);
    Kept(items, Converter(r, digest))
  }

  lemma ConvertedOffers(items: seq<Item>, r: UserRequirements, digest: string -> string)
    ensures forall i :: 0 <= i < |Kept(items, Converter(r, digest))| ==> AcceptedOffer(Kept(items, Converter(r, digest))[i], r)
  {
    forall i | 0 <= i < |Kept(items, Converter(r, digest))|
      ensures AcceptedOffer(Kept(items, Converter(r, digest))[i], r)
    {
      KeptFrom(items, Converter(r, digest), i);
    }
  }

  /** Conversion works item by item: the products of two runs of items are
      the products of the first followed by those of the second, so the
      output keeps the input order. */
  lemma ConvertedAppend(a: seq<Item>, b: seq<Item>, r: UserRequirements, digest: string -> string)
    ensures Converted(a + b, r, digest) == Converted(a, r, digest) + Converted(b, r, digest)
  {
    KeptAppend(a, b, Converter(r, digest));
  }

  /** `_parse_products_from_response`: no object in the reply, or one that
      does not decode, gives no products; a decoded value that is not an
      object makes `data.get` raise, which is `None` here. */
  function ParsedProducts(content: string, r: UserRequirements, parse: string -> Option<Document>, digest: string -> string): (res: Option<seq<Product>>)
    ensures BraceSlice(content).None? ==> res == Some([])
    ensures BraceSlice(content).Some? && parse(BraceSlice(content).value).None? ==> res == Some([])
    ensures res.Some? ==> forall i :: 0 <= i < |res.value| ==> AcceptedOffer(res.value[i], r)
  {
    match BraceSlice(content)
    case None => Some([])
    case Some(json) =>
      match parse(json)
      case None => Some([])
      case Some(NotAnObject) => None
      case Some(Listing(items)) => Some(Converted(items.GetOr([]), r, digest))
  }

  /** The loop over the decoded items. */
  method ParseProductsFromResponse(content: string, r: UserRequirements, parse: string -> Option<Document>, digest: string -> string)
    returns (res: Option<seq<Product>>)
    ensures res == ParsedProducts(content, r, parse, digest)
  {
    var slice := BraceSlice(content);
    if slice.None? {
      return Some([]);
    }
    var data := parse(slice.value);
    if data.None? {
      return Some([]);
    }
    if data.value.NotAnObject? {
      return None;
    }
    var products := KeepEach(data.value.products.GetOr([]), Converter(r, digest));
    res := Some(products);
  }

  /** `search`: the reply of the chat call (`None` when the call raises);
      any error yields no products. */
  function SearchResults(reply: Option<string>, r: UserRequirements, parse: string -> Option<Document>, digest: string -> string): (ps: seq<Product>)
    ensures reply.None? ==> ps == []
    ensures forall i :: 0 <= i < |ps| ==> AcceptedOffer(ps[i], r)
  {
    match reply
    case None => []
    case Some(content) => ParsedProducts(content, r, parse, digest).GetOr([])
  }
}
