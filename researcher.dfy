/** The research agent (agents/researcher.py): the product key used to spot
    the same product at several retailers, the deduplication that merges
    their offers and reviews, and the search over the retailers with the
    result cache in front of each scraper. */
module Researcher {
  import opened Wrappers
  import opened Strings
  import opened Dicts
  import opened Requirements
  import opened Products
  import opened Caching

  // ---------------------------------------------------------------------
  // Product keys

  /** The words replaced by a space before names are compared, in the order
      they are replaced. */
  const NoiseWords: seq<string> := ["the", "with", "for", "and", "-", ","]

  /** Characters of the cleaned name kept in a key. */
  const KeyNameLength: nat := 50

  /** The name after each of `words` in turn was replaced by a space. */
  function ReplaceWords(name: string, words: seq<string>): string
    requires forall i :: 0 <= i < |words| ==> words[i] != []
  {
    if words == [] then name
    else Replace(ReplaceWords(name, words[..|words| - 1]), words[|words| - 1], " ")
  }

  /** A model number is used only when it is set and not empty. */
  predicate HasModelNumber(p: Product) {
    p.modelNumber.Some? && p.modelNumber.value != ""
  }

  /** The name part of a key: the lower-case name without its noise words,
      its words joined by single spaces, cut to 50 characters.
      `' '.join(s.split())` is `CleanText(s)`. */
  function NameKey(name: string): (k: string)
    ensures |k| <= KeyNameLength
    ensures SingleSpaced(k)
    ensures k == [] || !IsSpace(k[0])
  {
    var cleaned := CleanText(ReplaceWords(Lower(name), NoiseWords));
    CleanTextShape(ReplaceWords(Lower(name), NoiseWords));
    var k := Prefix(cleaned, KeyNameLength);
    SliceSingleSpaced(cleaned, 0, |k|);
    k
  }

  /** What `_normalize_product_key` returns. */
  function ProductKey(p: Product): string {
    Lower(p.manufacturer) + ":" +
    (if HasModelNumber(p) then Lower(p.modelNumber.value) else NameKey(p.name))
  }

  /** A key starts with the lower-case manufacturer and a colon; what follows
      is the lower-case model number when there is one, otherwise a cleaned
      name of at most 50 characters. */
  lemma ProductKeyShape(p: Product)
    ensures var maker := Lower(p.manufacturer) + ":";
      var key := ProductKey(p);
      && |maker| <= |key| && key[..|maker|] == maker
      && (HasModelNumber(p) ==> key[|maker|..] == Lower(p.modelNumber.value))
      && (!HasModelNumber(p) ==> |key| <= |maker| + KeyNameLength && SingleSpaced(key[|maker|..]))
  {
    var maker := Lower(p.manufacturer) + ":";
    var rest := if HasModelNumber(p) then Lower(p.modelNumber.value) else NameKey(p.name);
    assert ProductKey(p) == maker + rest;
    assert (maker + rest)[|maker|..] == rest;
  }

  /** Two products of one manufacturer with different model numbers (after
      lower-casing) get different keys, and so do two without model numbers
      whose cleaned names differ: products are never merged by brand alone. */
  lemma DifferentProductsDifferentKeys(a: Product, b: Product)
    requires a.manufacturer == b.manufacturer
    ensures HasModelNumber(a) && HasModelNumber(b) && Lower(a.modelNumber.value) != Lower(b.modelNumber.value)
      ==> ProductKey(a) != ProductKey(b)
    ensures !HasModelNumber(a) && !HasModelNumber(b) && NameKey(a.name) != NameKey(b.name)
      ==> ProductKey(a) != ProductKey(b)
  {
    var maker := Lower(a.manufacturer) + ":";
    ProductKeyShape(a);
    ProductKeyShape(b);
    if ProductKey(a) == ProductKey(b) {
      assert ProductKey(a)[|maker|..] == ProductKey(b)[|maker|..];
    }
  }

  /** `_normalize_product_key`, replacing the noise words one after the other. */
  method NormalizeProductKey(p: Product) returns (key: string)
    ensures key == ProductKey(p)
  {
    if p.modelNumber.Some? && p.modelNumber.value != "" {
      return Lower(p.manufacturer) + ":" + Lower(p.modelNumber.value);
    }
    var name := Lower(p.name);
    var i := 0;
    while i < |NoiseWords|
      invariant 0 <= i <= |NoiseWords|
      invariant name == ReplaceWords(Lower(p.name), NoiseWords[..i])
    {
      assert NoiseWords[..i + 1][..i] == NoiseWords[..i];
      name := Replace(name, NoiseWords[i], " ");
      i := i + 1;
    }
    assert NoiseWords[..i] == NoiseWords;
    name := Prefix(CleanText(name), KeyNameLength);
    key := Lower(p.manufacturer) + ":" + name;
  }

  // ---------------------------------------------------------------------
  // Deduplication

  /** `existing.pricing.update(p.pricing)` and `existing.reviews.update(p.reviews)`. */
  function Absorb(existing: Product, p: Product): (r: Product)
    ensures SameIdentity(r, existing)
  {
    existing.(pricing := Update(existing.pricing, p.pricing), reviews := Update(existing.reviews, p.reviews))
  }

  /** A product without its offers and reviews. */
  function Identity(p: Product): Product {
    p.(pricing := [], reviews := [])
  }

  /** Two records of one product that may differ only in offers and reviews. */
  predicate SameIdentity(a: Product, b: Product) {
    Identity(a) == Identity(b)
  }

  /** The keys of the products. */
  function KeysOf(ps: seq<Product>, key: Product -> string): set<string> {
    set i | 0 <= i < |ps| :: key(ps[i])
  }

  lemma KeysOfPrefix(ps: seq<Product>, key: Product -> string)
    requires ps != []
    ensures KeysOf(ps, key) == KeysOf(ps[..|ps| - 1], key) + {key(ps[|ps| - 1])}
  {
    var n := |ps| - 1;
    assert forall j :: 0 <= j < n ==> ps[..n][j] == ps[j];
    forall k | k in KeysOf(ps, key) ensures k in KeysOf(ps[..n], key) + {key(ps[n])} {
      var i :| 0 <= i < |ps| && key(ps[i]) == k;
      if i < n {
        assert key(ps[..n][i]) == k;
      }
    }
  }

  /** `product_map` after the loop of `_deduplicate_products` has seen `ps`,
      where `key` is the product key: a new key is appended with its product,
      a known key absorbs the product's offers and reviews into the record
      already there. */
  function DedupMap(ps: seq<Product>, key: Product -> string): (m: Dict<string, Product>)
    ensures UniqueKeys(m) && KeySet(m) == KeysOf(ps, key) && |m| <= |ps|
    decreases |ps|
  {
    if ps == [] then []
    else
      var n := |ps| - 1;
      KeysOfPrefix(ps, key);
      AddProduct(DedupMap(ps[..n], key), key(ps[n]), ps[n])
  }

  /** One turn of that loop: `product_map[k] = p` for a new key, the merge of
      offers and reviews for a known one. */
  function AddProduct(m: Dict<string, Product>, k: string, p: Product): (r: Dict<string, Product>)
    requires UniqueKeys(m)
    ensures UniqueKeys(r) && KeySet(r) == KeySet(m) + {k}
    ensures |r| == if k in KeySet(m) then |m| else |m| + 1
    ensures forall i :: 0 <= i < |m| ==> r[i].0 == m[i].0
  {
    var v := match Get(m, k) case None => p case Some(e) => Absorb(e, p);
    PutUnique(m, k, v);
    Put(m, k, v)
  }

  /** An entry after a turn is the entry of the product's key, or was there
      before at the same position; the product's key holds the product
      itself when it is new, and otherwise the record already there with
      the product's offers and reviews merged in. */
  lemma AddProductEntry(m: Dict<string, Product>, k: string, p: Product, i: nat) returns (t: nat)
    requires UniqueKeys(m) && i < |AddProduct(m, k, p)|
    ensures var r := AddProduct(m, k, p);
      && (r[i].0 != k ==> i < |m| && r[i] == m[i])
      && (r[i].0 == k && k !in KeySet(m) ==> r[i].1 == p)
      && (r[i].0 == k && k in KeySet(m) ==> t < |m| && m[t].0 == k && SameIdentity(r[i].1, m[t].1))
  {
    var v := match Get(m, k) case None => p case Some(e) => Absorb(e, p);
    var r := Put(m, k, v);
    PutEntries(m, k, v);
    t := 0;
    if i < |m| && r[i] == m[i] {
      KeyInSet(m, i);
      t := i;
    } else if k in KeySet(m) {
      t := KeySetIndex(m, k);
      GetEntry(m, t);
    }
  }

  /** The position of the first product with key `k`, `|ps|` when there is none. */
  function FirstIndex(ps: seq<Product>, key: Product -> string, k: string): (i: nat)
    ensures i <= |ps|
    ensures i < |ps| ==> key(ps[i]) == k
    ensures forall j :: 0 <= j < i ==> key(ps[j]) != k
  {
    if ps == [] then 0
    else if key(ps[0]) == k then 0
    else 1 + FirstIndex(ps[1..], key, k)
  }

  lemma FirstIndexPrefix(ps: seq<Product>, key: Product -> string, n: nat, k: string)
    requires n <= |ps|
    ensures FirstIndex(ps[..n], key, k) < n ==> FirstIndex(ps, key, k) == FirstIndex(ps[..n], key, k)
    ensures FirstIndex(ps[..n], key, k) == n ==> FirstIndex(ps, key, k) >= n
  {
    assert forall j :: 0 <= j < n ==> ps[..n][j] == ps[j];
  }

  lemma FirstIndexFound(ps: seq<Product>, key: Product -> string, k: string)
    requires k in KeysOf(ps, key)
    ensures FirstIndex(ps, key, k) < |ps|
  {
    var i :| 0 <= i < |ps| && key(ps[i]) == k;
  }

  lemma FirstIndexAbsent(ps: seq<Product>, key: Product -> string, k: string)
    requires k !in KeysOf(ps, key)
    ensures FirstIndex(ps, key, k) == |ps|
  {
  }

  /** Each entry of the deduplicated map holds the first product with its
      key, offers and reviews aside. */
  lemma {:induction false} DedupKeepsFirst(ps: seq<Product>, key: Product -> string, j: nat)
    requires j < |DedupMap(ps, key)|
    ensures var m := DedupMap(ps, key);
      var f := FirstIndex(ps, key, m[j].0);
      f < |ps| && SameIdentity(m[j].1, ps[f])
    decreases |ps|, 1
  {
    var n := |ps| - 1;
    var k := key(ps[n]);
    if DedupMap(ps, key)[j].0 != k {
      KeepsFirstEarlier(ps, key, j);
    } else if k in KeySet(DedupMap(ps[..n], key)) {
      KeepsFirstMerged(ps, key, j);
    } else {
      KeepsFirstNew(ps, key, j);
    }
  }

  /** An entry of another key than the last product's is carried over. */
  lemma {:induction false} KeepsFirstEarlier(ps: seq<Product>, key: Product -> string, j: nat)
    requires j < |DedupMap(ps, key)| && DedupMap(ps, key)[j].0 != key(ps[|ps| - 1])
    ensures var m := DedupMap(ps, key);
      var f := FirstIndex(ps, key, m[j].0);
      f < |ps| && SameIdentity(m[j].1, ps[f])
    decreases |ps|, 0
  {
    var n := |ps| - 1;
    var init := ps[..n];
    var m := DedupMap(init, key);
    var _ := AddProductEntry(m, key(ps[n]), ps[n], j);
    DedupKeepsFirst(init, key, j);
    var f := FirstIndex(init, key, m[j].0);
    FirstIndexPrefix(ps, key, n, m[j].0);
    assert ps[f] == init[f];
  }

  /** The entry of the last product's key, when that key is new, is the last
      product itself. */
  lemma {:induction false} KeepsFirstNew(ps: seq<Product>, key: Product -> string, j: nat)
    requires j < |DedupMap(ps, key)| && DedupMap(ps, key)[j].0 == key(ps[|ps| - 1])
    requires key(ps[|ps| - 1]) !in KeySet(DedupMap(ps[..|ps| - 1], key))
    ensures var m := DedupMap(ps, key);
      var f := FirstIndex(ps, key, m[j].0);
      f < |ps| && SameIdentity(m[j].1, ps[f])
    decreases |ps|, 0
  {
    var n := |ps| - 1;
    var init := ps[..n];
    var k := key(ps[n]);
    var _ := AddProductEntry(DedupMap(init, key), k, ps[n], j);
    FirstIndexAbsent(init, key, k);
    FirstIndexPrefix(ps, key, n, k);
    assert FirstIndex(ps, key, k) == n;
  }

  /** The entry of the last product's key, when that key was known, is the
      earlier record with the product's offers and reviews merged in. */
  lemma {:induction false} KeepsFirstMerged(ps: seq<Product>, key: Product -> string, j: nat)
    requires j < |DedupMap(ps, key)| && DedupMap(ps, key)[j].0 == key(ps[|ps| - 1])
    requires key(ps[|ps| - 1]) in KeySet(DedupMap(ps[..|ps| - 1], key))
    ensures var m := DedupMap(ps, key);
      var f := FirstIndex(ps, key, m[j].0);
      f < |ps| && SameIdentity(m[j].1, ps[f])
    decreases |ps|, 0
  {
    var n := |ps| - 1;
    var init := ps[..n];
    var m := DedupMap(init, key);
    var k := key(ps[n]);
    var t := AddProductEntry(m, k, ps[n], j);
    DedupKeepsFirst(init, key, t);
    var f := FirstIndex(init, key, k);
    FirstIndexPrefix(ps, key, n, k);
    assert ps[f] == init[f];
    assert Identity(DedupMap(ps, key)[j].1) == Identity(m[t].1) == Identity(init[f]);
  }

  /** The entries of the deduplicated map come in the order in which their
      keys first occur in the input. */
  lemma {:induction false} DedupFirstOccurrenceOrder(ps: seq<Product>, key: Product -> string, a: nat, b: nat)
    requires a < b < |DedupMap(ps, key)|
    ensures var m := DedupMap(ps, key);
      FirstIndex(ps, key, m[a].0) < FirstIndex(ps, key, m[b].0)
    decreases |ps|
  {
    var n := |ps| - 1;
    var init := ps[..n];
    var m := DedupMap(init, key);
    var k := key(ps[n]);
    var m' := AddProduct(m, k, ps[n]);
    assert DedupMap(ps, key) == m';
    assert m'[a].0 == m[a].0;
    KeyInSet(m, a);
    FirstIndexFound(init, key, m[a].0);
    FirstIndexPrefix(ps, key, n, m[a].0);
    if b < |m| {
      assert m'[b].0 == m[b].0;
      DedupFirstOccurrenceOrder(init, key, a, b);
      KeyInSet(m, b);
      FirstIndexFound(init, key, m[b].0);
      FirstIndexPrefix(ps, key, n, m[b].0);
    } else {
      var _ := AddProductEntry(m, k, ps[n], b);
      FirstIndexAbsent(init, key, k);
      FirstIndexPrefix(ps, key, n, k);
    }
  }

  /** The offer of `retailer` a deduplicated product ends up with: the one of
      the last product with that key that has an offer from that retailer. */
  function LastOffer(ps: seq<Product>, key: Product -> string, k: string, retailer: string): Option<PriceInfo> {
    if ps == [] then None
    else
      var n := |ps| - 1;
      if key(ps[n]) == k && Get(ps[n].pricing, retailer).Some? then Get(ps[n].pricing, retailer)
      else LastOffer(ps[..n], key, k, retailer)
  }

  /** Likewise for the review summary of `retailer`. */
  function LastReview(ps: seq<Product>, key: Product -> string, k: string, retailer: string): Option<ReviewSummary> {
    if ps == [] then None
    else
      var n := |ps| - 1;
      if key(ps[n]) == k && Get(ps[n].reviews, retailer).Some? then Get(ps[n].reviews, retailer)
      else LastReview(ps[..n], key, k, retailer)
  }

  lemma {:induction false} NoKeyNoOffer(ps: seq<Product>, key: Product -> string, k: string, retailer: string)
    requires k !in KeysOf(ps, key)
    ensures LastOffer(ps, key, k, retailer).None? && LastReview(ps, key, k, retailer).None?
    decreases |ps|
  {
    if ps != [] {
      var n := |ps| - 1;
      KeysOfPrefix(ps, key);
      NoKeyNoOffer(ps[..n], key, k, retailer);
    }
  }

  /** One more product, as `DedupMap` takes it. */
  lemma DedupMapSnoc(ps: seq<Product>, key: Product -> string, i: nat)
    requires i < |ps|
    ensures DedupMap(ps[..i + 1], key) == AddProduct(DedupMap(ps[..i], key), key(ps[i]), ps[i])
  {
    assert ps[..i + 1][..i] == ps[..i];
  }

  /** The merged record of a key offers, per retailer, what the last product
      with that key offered there: later duplicates overwrite earlier ones. */
  lemma {:induction false} DedupOffers(ps: seq<Product>, key: Product -> string, k: string, retailer: string)
    requires forall i :: 0 <= i < |ps| ==> ps[i].Valid()
    requires k in KeysOf(ps, key)
    ensures Get(DedupMap(ps, key), k).Some?
    ensures Get(Get(DedupMap(ps, key), k).value.pricing, retailer) == LastOffer(ps, key, k, retailer)
    ensures Get(Get(DedupMap(ps, key), k).value.reviews, retailer) == LastReview(ps, key, k, retailer)
    decreases |ps|, 1
  {
    var n := |ps| - 1;
    var init := ps[..n];
    var pk := key(ps[n]);
    PutGet(DedupMap(init, key), pk, match Get(DedupMap(init, key), pk) case None => ps[n] case Some(e) => Absorb(e, ps[n]), k);
    KeysOfPrefix(ps, key);
    if pk != k {
      assert forall j :: 0 <= j < n ==> init[j] == ps[j];
      DedupOffers(init, key, k, retailer);
    } else if Get(DedupMap(init, key), pk).Some? {
      OffersMerged(ps, key, retailer);
    } else {
      NoKeyNoOffer(init, key, k, retailer);
    }
  }

  /** The case of a known key in the last step: `update` lets the new
      product's offer and review of `retailer` win. */
  lemma {:induction false} OffersMerged(ps: seq<Product>, key: Product -> string, retailer: string)
    requires ps != [] && forall i :: 0 <= i < |ps| ==> ps[i].Valid()
    requires Get(DedupMap(ps[..|ps| - 1], key), key(ps[|ps| - 1])).Some?
    ensures var k := key(ps[|ps| - 1]);
      && Get(DedupMap(ps, key), k).Some?
      && Get(Get(DedupMap(ps, key), k).value.pricing, retailer) == LastOffer(ps, key, k, retailer)
      && Get(Get(DedupMap(ps, key), k).value.reviews, retailer) == LastReview(ps, key, k, retailer)
    decreases |ps|, 0
  {
    var n := |ps| - 1;
    var init := ps[..n];
    var m := DedupMap(init, key);
    var p := ps[n];
    var k := key(p);
    var e := Get(m, k).value;
    PutGet(m, k, Absorb(e, p), k);
    assert forall j :: 0 <= j < n ==> init[j] == ps[j];
    DedupOffers(init, key, k, retailer);
    UpdateGet(e.pricing, p.pricing, retailer);
    UpdateGet(e.reviews, p.reviews, retailer);
  }

  /** `_deduplicate_products` */
  /** One step of the deduplication loop: a new key stores the product, a
      known key absorbs its offers and reviews into the stored one. */
  method AddToMap(productMap: Dict<string, Product>, key: string, product: Product)
    returns (next: Dict<string, Product>)
    requires UniqueKeys(productMap)
    ensures next == AddProduct(productMap, key, product)
  {
    var existing := Get(productMap, key);
    if existing.Some? {
      next := Put(productMap, key, Absorb(existing.value, product));
    } else {
      next := Put(productMap, key, product);
    }
  }

  method Deduplicate(products: seq<Product>) returns (unique: seq<Product>)
    ensures unique == Values(DedupMap(products, ProductKey))
  {
    if products == [] {
      return [];
    }
    var productMap: Dict<string, Product> := [];
    assert products[..0] == [];
    for i := 0 to |products|
      invariant productMap == DedupMap(products[..i], ProductKey)
    {
      var product := products[i];
      var key := NormalizeProductKey(product);
      DedupMapSnoc(products, ProductKey, i);
      productMap := AddToMap(productMap, key, product);
    }
    assert products[..|products|] == products;
    unique := Values(productMap);
  }

  /** Offers and reviews play no part in the product key. */
  lemma SameIdentitySameKey(a: Product, b: Product)
    requires SameIdentity(a, b)
    ensures ProductKey(a) == ProductKey(b)
  {
    assert Identity(a).manufacturer == Identity(b).manufacturer;
    assert Identity(a).modelNumber == Identity(b).modelNumber;
    assert Identity(a).name == Identity(b).name;
  }

  /** The deduplicated products have pairwise different keys, one product per
      key of the input, never more products than the input, and none for an
      empty input. */
  lemma DedupUnique(ps: seq<Product>)
    ensures var out := Values(DedupMap(ps, ProductKey));
      && |out| <= |ps|
      && (ps == [] ==> out == [])
      && (forall i, j :: 0 <= i < j < |out| ==> ProductKey(out[i]) != ProductKey(out[j]))
      && (forall k :: k in KeysOf(ps, ProductKey) <==> exists i :: 0 <= i < |out| && ProductKey(out[i]) == k)
  {
    var m := DedupMap(ps, ProductKey);
    var out := Values(m);
    forall i | 0 <= i < |m| ensures ProductKey(out[i]) == m[i].0 {
      DedupKeepsFirst(ps, ProductKey, i);
      SameIdentitySameKey(m[i].1, ps[FirstIndex(ps, ProductKey, m[i].0)]);
    }
    forall i, j | 0 <= i < j < |m| ensures ProductKey(out[i]) != ProductKey(out[j]) {
      UniqueKeysDistinct(m, i, j);
    }
    forall k | k in KeysOf(ps, ProductKey) ensures exists i :: 0 <= i < |out| && ProductKey(out[i]) == k {
      var t := KeySetIndex(m, k);
      assert ProductKey(out[t]) == k;
    }
    forall i | 0 <= i < |out| ensures ProductKey(out[i]) in KeysOf(ps, ProductKey) {
      KeyInSet(m, i);
    }
  }

  // ---------------------------------------------------------------------
  // Searching the retailers

  /** The scrapers, in the order `search` visits them. */
  const Retailers: seq<string> := ["amazon", "walmart", "bestbuy"]

  /** What a scraper's `search` did: returned products, or raised. */
  datatype ScrapeOutcome = Scraped(products: seq<Product>) | ScrapeFailed

  /** The world as one retailer's turn sees it: the clock, what its scraper
      would do if asked, and how writing the cache file would end. */
  datatype Round = Round(now: int, scrape: ScrapeOutcome, write: WriteOutcome)

  /** `str(requirements.budget.max)` or `str(0)`; the text of a float is
      given by `render`. */
  function BudgetArg(r: UserRequirements, render: real -> string): string {
    if r.budget.Some? then render(r.budget.value.max) else "0"
  }

  /** `_make_cache_key`: the retailer, the category, the budget text and the
      text of the required specifications. */
  function SearchCacheKey(retailer: string, category: string, budgetText: string, specsText: string): string {
    MakeCacheKey([retailer, category, budgetText, specsText], [])
  }

  /** The retailers never share a cache entry. */
  lemma SearchKeysDistinct(i: nat, j: nat, category: string, budgetText: string, specsText: string)
    requires i < j < |Retailers|
    ensures SearchCacheKey(Retailers[i], category, budgetText, specsText) != SearchCacheKey(Retailers[j], category, budgetText, specsText)
  {
    var rest := [category, budgetText, specsText];
    assert [Retailers[i], category, budgetText, specsText] == [Retailers[i]] + rest;
    assert [Retailers[j], category, budgetText, specsText] == [Retailers[j]] + rest;
    CacheKeyFirstPart(Retailers[i], Retailers[j], rest, rest);
  }

  /** One retailer's turn: the products it adds and the cache it leaves.  A
      cached non-empty list is used as it is; otherwise the scraper is asked,
      and a non-empty answer is written to the cache when caching is on.  A
      scraper that raises adds nothing. */
  function Turn(store: Store<seq<Product>>, enabled: bool, ttlHours: int, key: string, round: Round): (r: (seq<Product>, Store<seq<Product>>))
  {
    var (cached, afterGet) := if enabled then Lookup(store, key, round.now, ttlHours) else (None, store);
    if cached.Some? && cached.value != [] then (cached.value, afterGet)
    else
      match round.scrape
      case ScrapeFailed => ([], afterGet)
      case Scraped(ps) =>
        if ps != [] && enabled then (ps, Stored(afterGet, key, ps, round.now, ttlHours, round.write))
        else (ps, afterGet)
  }

  /** The products gathered by the first `n` turns and the cache they leave. */
  function Gathered(store: Store<seq<Product>>, enabled: bool, ttlHours: int, keys: seq<string>, rounds: seq<Round>, n: nat): (r: (seq<Product>, Store<seq<Product>>))
    requires n <= |keys| && n <= |rounds|
  {
    if n == 0 then ([], store)
    else
      var (before, s) := Gathered(store, enabled, ttlHours, keys, rounds, n - 1);
      var (added, s') := Turn(s, enabled, ttlHours, keys[n - 1], rounds[n - 1]);
      (before + added, s')
  }

  /** What the scrapers returned, in turn order, a failed scraper counting as
      no products. */
  function Scrapes(rounds: seq<Round>): seq<Product> {
    if rounds == [] then []
    else
      var last := rounds[|rounds| - 1];
      Scrapes(rounds[..|rounds| - 1]) + (match last.scrape case Scraped(ps) => ps case ScrapeFailed => [])
  }

  /** With caching off the cache is left alone and every scraper is asked:
      the gathered products are what the scrapers returned, in order. */
  lemma {:induction false} GatheredWithoutCache(store: Store<seq<Product>>, ttlHours: int, keys: seq<string>, rounds: seq<Round>, n: nat)
    requires n <= |keys| && n <= |rounds|
    ensures Gathered(store, false, ttlHours, keys, rounds, n) == (Scrapes(rounds[..n]), store)
  {
    if n > 0 {
      GatheredWithoutCache(store, ttlHours, keys, rounds, n - 1);
      assert rounds[..n][..n - 1] == rounds[..n - 1];
    }
  }

  /** A turn either serves the cached list it found or whatever the scraper
      returned, and it writes to the cache only when it scraped a non-empty
      list; its key is the only entry it can change. */
  lemma TurnSources(store: Store<seq<Product>>, enabled: bool, ttlHours: int, key: string, round: Round)
    ensures var (added, s) := Turn(store, enabled, ttlHours, key, round);
      && (added == [] || (key in store && store[key].Entry? && store[key].value == Some(added))
          || round.scrape == Scraped(added))
      && (forall k :: k != key ==> (k in s <==> k in store) && (k in s ==> s[k] == store[k]))
      && (enabled && round.scrape.Scraped? && round.scrape.products != [] && round.write == Written
          && !(key in store && store[key].Entry? && store[key].value.Some? && store[key].value.value != []
               && !Expired(store[key].cachedAt, ttlHours, round.now))
          ==> key in s && s[key] == Entry(Some(round.scrape.products), round.now, Some(ttlHours)))
  {
  }

  class ResearchAgent {
    /** The result cache in front of the scrapers. */
    const cache: Cache<seq<Product>>

    /** `ResearchAgent()`: a cache over the files already in the cache
        directory, with the configured time to live. */
    constructor (files: Store<seq<Product>>, configuredTtl: int, cacheEnabled: bool)
      ensures fresh(cache)
      ensures cache.entries == files && cache.enabled == cacheEnabled && cache.ttlHours == configuredTtl
    {
      cache := new Cache(files, None, configuredTtl, cacheEnabled);
    }

    /** `search`: every retailer in turn, through the cache, then the
        deduplication.  The cache key holds the budget's maximum (or 0) and
        the specifications as text: `render` and `renderSpecs` stand for
        Python's `str` of a float and of the specification dict. */
    method Search(r: UserRequirements, render: real -> string, renderSpecs: Specs -> string, rounds: seq<Round>)
      returns (unique: seq<Product>)
      requires |rounds| == |Retailers|
      modifies cache
      ensures var budgetText, specsText := BudgetArg(r, render), renderSpecs(r.mustHaveSpecs);
        var keys := seq(|Retailers|, i requires 0 <= i < |Retailers| => SearchCacheKey(Retailers[i], r.productCategory, budgetText, specsText));
        var (gathered, store) := Gathered(old(cache.entries), cache.enabled, cache.ttlHours, keys, rounds, |Retailers|);
        && cache.entries == store
        && unique == Values(DedupMap(gathered, ProductKey))
    {
      var budgetText, specsText := BudgetArg(r, render), renderSpecs(r.mustHaveSpecs);
      ghost var keys := seq(|Retailers|, i requires 0 <= i < |Retailers| => SearchCacheKey(Retailers[i], r.productCategory, budgetText, specsText));
      var allProducts: seq<Product> := [];
      var i := 0;
      while i < |Retailers|
        invariant 0 <= i <= |Retailers|
        invariant (allProducts, cache.entries) == Gathered(old(cache.entries), cache.enabled, cache.ttlHours, keys, rounds, i)
      {
        var key := SearchCacheKey(Retailers[i], r.productCategory, budgetText, specsText);
        assert key == keys[i];
        var round := rounds[i];
        ghost var before := cache.entries;
        ghost var turn := Turn(before, cache.enabled, cache.ttlHours, key, round);
        var cached := cache.Get(key, round.now);
        var products: seq<Product>;
        if cached.Some? && cached.value != [] {
          products := cached.value;
        } else {
          match round.scrape
          case ScrapeFailed =>
            assert turn == ([], cache.entries);
            assert allProducts + [] == allProducts;
            i := i + 1;
            continue;
          case Scraped(ps) =>
            products := ps;
            if products != [] && cache.enabled {
              var _ := cache.Set(key, products, round.now, round.write);
            }
        }
        assert turn == (products, cache.entries);
        allProducts := allProducts + products;
        i := i + 1;
      }
      unique := Deduplicate(allProducts);
    }
  }
}
