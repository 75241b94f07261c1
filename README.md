# product_review in Dafny

A model of the deterministic core of **product_review**, a command-line
research assistant for buying electronics. The program runs once per
invocation and does four things in order:

1. It gathers the user's requirements in a question loop of at most five
   rounds. A planner agent judges whether the requirements are complete. A
   collector agent picks the next question and records every question it
   asks.
2. It searches one provider for products: Google Shopping through SerpApi,
   or the Perplexity chat model. A multi-retailer research agent and a
   web-search researcher are modelled too. Each product source turns search
   results into `Product` records and rejects items that have no name, have
   no positive price or are over budget.
3. The research agent removes duplicate products, keyed on the
   manufacturer and the model number or normalised name. A file cache with
   a time to live sits in front of each scraper.
4. An analyzer agent asks a language model for the report. When that call
   fails, it writes a fallback report of the five best-rated products
   instead. A search that finds nothing gets a fixed no-results report.

The model has one Dafny module per source file, plus three shared helper
modules:

- `Wrappers` holds Option and Result.
- `Strings` holds the Python string operations the program relies on.
- `Dicts` models a Python dict as an association list with distinct keys,
  because the program depends on insertion order.

The style of each module follows the source file it models:

- Record types and pure computations are datatypes and functions.
- Objects whose fields change become classes:
  - the cache, whose directory is a map from key to entry;
  - the research agent;
  - the collector;
  - the orchestrator.
- Every loop of the source is a method. Its `ensures` ties the result, or
  the new state, to a specification function.
- Lemmas state the properties of those functions: the merge never forgets
  a known value, deduplication keeps one product per key, the fallback
  ranking is a sorted permutation, the gathering loop is bounded, and so on.

Language-model replies, search responses, user answers, the clock and
`json.loads` are parameters of the operations that use them. The model
interprets none of them.

## Model

| member | source | states |
|---|---|---|
| Strings.Lower | python_code/config.py:23-31 | `.lower()` keeps the length and lowers each character on its own |
| Strings.LowerOfLower | python_code/config.py:23-31 | lowering text without capitals changes nothing |
| Strings.RemoveChars | python_code/scrapers/base.py:128 | deleting a character class never lengthens a text and leaves none of those characters |
| Strings.Prefix | python_code/agents/researcher.py:143 | a slice `[:n]`, of a text or of `list(d.items())`, is the first `min(n, len)` elements, and the whole sequence when it is short enough |
| Strings.Find | python_code/utils/llm.py:170-175 | a search result is the first match at or after the start, and no result means no match there |
| Strings.ReplaceCharAt | python_code/agents/researcher_websearch.py:152 | replacing one character by another keeps the length and changes exactly the occurrences of that character |
| Strings.FirstWordExists | python_code/scrapers/base.py:191-199 | a text has a first word exactly when it is not blank |
| Strings.Strip | python_code/agents/planner.py:219 | `.strip()` is the slice of the text between its leading and its trailing whitespace, neither starting nor ending with whitespace |
| Strings.CleanText | python_code/scrapers/base.py:201-218 | `' '.join(text.split())`, written as collapsing whitespace runs and stripping; CleanTextShape and CleanTextIdempotent state its shape and idempotence |
| Strings.CleanTextShape | python_code/scrapers/base.py:201-218 | cleaned text has no whitespace at either end and no two whitespace characters in a row |
| Strings.CleanTextIdempotent | python_code/scrapers/base.py:201-218 | cleaning cleaned text changes nothing |
| Strings.SplitJoin | python_code/utils/cache.py:226-228 | splitting a text joined with the bar character on that character gives back its parts when no part contains it |
| Strings.NatToStringRoundTrip | python_code/agents/analyzer.py:101-104 | the decimal rendering of a count reads back as that count |
| Strings.FirstDecimal | python_code/scrapers/base.py:131 | the pattern `\d+\.?\d*` matches exactly when the text has a digit, and its match starts at the first digit with all the digits there and, when a point follows them, all the digits after the point |
| Strings.MatchUnique | python_code/scrapers/base.py:131 | the greedy match at a place is unique |
| Strings.FirstDecimalOfText | python_code/scrapers/base.py:131 | a decimal written after text without digits and before text that does not continue the number is the match, read back exactly |
| Strings.FirstInt | python_code/agents/researcher_serp.py:245-247 | a run of digits is found exactly when the text has a digit |
| Strings.BraceSlice | python_code/utils/llm.py:191-196 | the JSON candidate starts with `{` and ends with `}` |
| Strings.BraceSliceExists | python_code/utils/llm.py:191-196 | a candidate exists exactly when some `{` comes before some `}` |
| Strings.BraceSliceIdempotent | python_code/utils/llm.py:191-196 | taking the brace slice of a brace slice changes nothing |
| Strings.TitleCase | python_code/agents/analyzer.py:89-120 | `.title()` keeps the length and capitalises each character exactly when it starts a run of letters |
| Strings.TitleCaseIdempotent | python_code/agents/analyzer.py:89-120 | title-casing twice is the same as title-casing once |
| Dicts.KeySetIndex | python_code/agents/researcher.py:112 | a key is in a dictionary's key set exactly when some entry carries it, and the lemma returns that entry's position |
| Dicts.KeyInSet | python_code/agents/researcher.py:112 | the key of every entry belongs to the key set |
| Dicts.UniqueKeysDistinct | python_code/agents/researcher.py:106-120 | in a dictionary with unique keys, two different positions hold different keys |
| Dicts.Get | python_code/agents/researcher.py:112-114 | a lookup succeeds exactly when the key is present |
| Dicts.GetEntry | python_code/agents/researcher.py:114 | in a dictionary with unique keys, looking up an entry's key gives that entry's value |
| Dicts.Put | python_code/agents/researcher.py:116-118 | assignment adds the key to the key set; the length grows by one only for a new key; existing keys keep their positions (insertion order) |
| Dicts.PutGet | python_code/agents/researcher.py:116-118 | after assigning `k`, looking up `k` gives the new value and every other key gives what it gave before |
| Dicts.PutEntries | python_code/agents/researcher.py:116-118 | every entry after an assignment is either the assigned pair or the entry that was at that position before |
| Dicts.PutUnique | python_code/agents/researcher.py:106-118 | assignment keeps keys unique |
| Dicts.Update | python_code/agents/planner.py:212-213 | `{**d, **e}` has exactly the keys of both dictionaries |
| Dicts.UpdateGet | python_code/agents/planner.py:212-213 | in `{**d, **e}` a key of `e` has its value from `e`, any other key its value from `d` |
| Dicts.UpdateUnique | python_code/agents/planner.py:212-213 | `{**d, **e}` keeps keys unique |
| Dicts.UpdateKeepsOrder | python_code/agents/planner.py:212-213 | the keys of `d` keep their places at the front of `{**d, **e}` |
| Dicts.Filter | python_code/models/product.py:135-139 | a dictionary comprehension with a condition keeps no more entries than it started with, and every kept entry satisfies the condition |
| Dicts.FilterGet | python_code/models/product.py:135-139 | a key is found in the filtered dictionary with its old value exactly when it was present and its entry satisfies the condition |
| Dicts.FilterKeys | python_code/models/product.py:135-139 | filtering never adds keys |
| Dicts.Values | python_code/agents/researcher.py:120 | `.values()` lists the entries' values in insertion order |
| Products.MakePriceInfo | python_code/models/product.py:17-32 | a price record is built exactly when the current price is not negative, and then carries the given fields |
| Products.TotalPriceNoShipping | python_code/models/product.py:34-36 | with no (or zero) shipping cost the total price is the current price |
| Products.MakeReviewSummary | python_code/models/product.py:39-53 | a review summary is built exactly when the rating lies in [0, 5], and keeps rating and count |
| Products.BestIndex | python_code/models/product.py:90-102 | `None` exactly when nothing is in stock; otherwise an in-stock offer whose total is minimal and strictly below every earlier in-stock offer (the one `min` picks) |
| Products.GetBestPrice | python_code/models/product.py:82-104 | `("", 0.0)` when nothing is in stock; otherwise the retailer and current price (shipping excluded) of that offer |
| Products.BestPriceIsCheapest | python_code/models/product.py:99-104 | no in-stock offer totals less than the one returned |
| Products.AverageRating | python_code/models/product.py:106-112 | 0 when no retailer has a review; otherwise the mean of the ratings of the retailers with at least one review |
| Products.AverageRatingInRange | python_code/models/product.py:48-53 | for validated summaries the average is itself within [0, 5] |
| Products.AverageOfEqualRatings | python_code/models/product.py:111-112 | when every reviewed retailer reports the same rating, that rating is the average |
| Products.TotalReviews | python_code/models/product.py:114-116 | with non-negative counts the total is non-negative and at least every single count |
| Products.InStockPrices | python_code/models/product.py:123 | exactly the current prices of the in-stock offers |
| Products.PriceRange | python_code/models/product.py:118-127 | `(0, 0)` when nothing is in stock; otherwise two in-stock prices that bound every in-stock price |
| Products.IsAvailable | python_code/models/product.py:129-131 | `is_available`: some retailer has the product in stock; AvailabilityAgrees ties it to the best price and the price range |
| Products.AvailabilityAgrees | python_code/models/product.py:129-131 | availability, the existence of a best offer and a non-empty price range coincide |
| Products.BestPriceIsRangeMinimum | python_code/models/product.py:82-127 | without shipping costs the best price is the low end of the price range |
| Products.RetailerUrls | python_code/models/product.py:133-139 | no more links than offers, and no empty link |
| Products.RetailerUrlsKeys | python_code/models/product.py:133-139 | every retailer with a link has an offer |
| Products.RetailerUrlsGet | python_code/models/product.py:133-139 | a retailer's link is its offer's URL exactly when that URL is not empty |
| Products.MakeAnalysisResult | python_code/models/product.py:170-182 | a result is built exactly when both scores lie in [0, 100] and the confidence in [0, 1]; otherwise the errors name exactly the fields out of range |
| Requirements.MakeBudget | python_code/models/requirements.py:9-28 | a budget is accepted exactly when its minimum is absent or non-negative and its maximum positive; a rejection names each failing validator, both directions |
| Requirements.Budget.EffectiveMax | python_code/models/requirements.py:30-34 | `get_effective_max`: the maximum raised by the flexibility percentage when the budget is flexible with a truthy percentage; EffectiveMaxBounds states its bounds |
| Requirements.EffectiveMaxBounds | python_code/models/requirements.py:30-34 | the effective maximum is the maximum unless the budget is flexible with a non-zero percentage, is at least the maximum for a non-negative percentage, and stays positive |
| Requirements.EmptyRequirements | python_code/models/requirements.py:46-69 | the default record is valid and keeps the raw input |
| Requirements.MissingFields | python_code/models/requirements.py:88-101 | each of the three field names is listed exactly when its own condition fails, in the fixed order, at most three of them |
| Requirements.GetMissingFields | python_code/models/requirements.py:88-101 | the loop-free method builds exactly the list `MissingFields` specifies |
| Requirements.IsComplete | python_code/models/requirements.py:71-86 | `is_complete`: a category longer than two characters, a budget with a positive maximum, specifications or a use case, and a completeness score of at least 0.7; CompleteHasNoMissingFields relates it to the missing fields |
| Requirements.CompleteHasNoMissingFields | python_code/models/requirements.py:71-101 | a record that `is_complete` accepts has no missing field |
| Requirements.ScalarTexts | python_code/models/requirements.py:107-110 | only specification values that are strings or numbers are rendered, so there are at most as many texts as specifications |
| Requirements.ScalarTextsPrefix | python_code/models/requirements.py:107-110 | the texts of a prefix of the specifications are a prefix of the texts of all of them |
| Requirements.ScalarTextsAll | python_code/models/requirements.py:107-110 | when every value is a scalar, each specification contributes exactly its own rendering, in order |
| Requirements.ToSearchQuery | python_code/models/requirements.py:103-112 | the loop builds the category followed by the scalar specification values, joined by single spaces |
| Planner.ParseBudget | python_code/agents/planner.py:125-134 | a budget is built exactly when the dictionary has a truthy maximum and the validators accept it; the construction fails exactly when the maximum is non-zero and negative or the minimum is negative |
| Planner.ParseDecision | python_code/agents/planner.py:119-174 | the decision lacks requirements exactly when it is the minimal fallback decision; otherwise the requirements are valid, carry the raw input and have no retailers or priorities |
| Planner.ParseDecisionAnswer | python_code/agents/planner.py:137-158 | a well-formed answer gives requirements whose status, score and category come from the answer or its defaults, and a budget exactly when the answer's maximum is truthy |
| Planner.ParseDecisionFailure | python_code/agents/planner.py:162-174 | every parse failure, including a budget the validators reject, gives `need_more_info`, score 0, no requirements and the `unknown` missing field |
| Planner.Analyze | python_code/agents/planner.py:27-107 | a failed model call becomes an error, and any answer is the parsed decision |
| Planner.Distinct | python_code/agents/planner.py:214-216 | `list(set(...))` keeps exactly the same elements, without duplicates and never more of them |
| Planner.Union | python_code/agents/planner.py:214-216 | the merged list holds exactly the elements of either side, once each |
| Planner.MergeScalars | python_code/agents/planner.py:209-211 | category, budget, use case and priorities come from the new record when it has them and from the existing one otherwise |
| Planner.Merge | python_code/agents/planner.py:201-219 | `_merge_requirements`: `new or existing` per scalar, `{**old, **new}` for the specs, set unions for the lists, the new priorities when given, the larger score, no preferred retailers and the stripped joined raw input; its properties are stated by MergeScalars, MergeSpecs, MergeLists, MergeRawInput, MergeNeverForgets, MergeValid and MergeKeepsComplete |
| Planner.MergeNeverForgets | python_code/agents/planner.py:208-219 | nothing known before is lost: non-empty fields stay non-empty, the specification keys are the union of both sides, and the score is the larger of the two |
| Planner.MergeSpecs | python_code/agents/planner.py:212-213 | a specification key gets the new value when the new record has it and the old one otherwise |
| Planner.MergeLists | python_code/agents/planner.py:214-216 | deal breakers and brand lists are exactly the union of both sides, without duplicates |
| Planner.MergeRawInput | python_code/agents/planner.py:219 | the raw input is the two inputs on separate lines with surrounding whitespace stripped |
| Planner.MergeValid | python_code/agents/planner.py:208-220 | merging valid records gives a valid record whose specification keys are unique |
| Planner.MergeKeepsComplete | python_code/agents/planner.py:208-220 | a complete record stays complete after a merge unless the new category is one or two characters long |
| Planner.MergeShortCategoryLosesCompleteness | python_code/agents/planner.py:209 | a concrete merge where a new two-letter category makes a complete record incomplete |
| Planner.UpdateRequirements | python_code/agents/planner.py:176-199 | a failed analysis is an error; a decision without requirements leaves the current record unchanged; otherwise the result is the merge |
| Planner.UpdateNeverForgets | python_code/agents/planner.py:176-220 | a successful update keeps every category, budget, use case and specification key already known |
| ScraperBase.BuildSearchQuery | python_code/scrapers/base.py:95-112 | the loop builds the category followed by the scalar values among the first three specifications, joined by spaces |
| ScraperBase.RetailerQueryParts | python_code/scrapers/base.py:105-112 | the retailer query uses at most three specification values, and the same values as the full query when there are at most three specifications |
| ScraperBase.RemoveCharsKeepsDigits | python_code/scrapers/base.py:127-131 | removing `,` and `$` neither adds nor removes a digit |
| ScraperBase.ExtractPrice | python_code/scrapers/base.py:114-138 | a price is found exactly when the text has a digit, and it is never negative |
| ScraperBase.ExtractPriceOf | python_code/scrapers/base.py:114-138 | any price written between digit-free text and text that ends the number (and is not a comma or a dollar sign) reads back as its value, commas and dollar signs before it notwithstanding; the whole-number case included |
| ScraperBase.ExtractPriceExample | python_code/scrapers/base.py:114-138 | `"$1,299.99"` gives 1299.99 |
| ScraperBase.ExtractRating | python_code/scrapers/base.py:140-163 | a rating is found exactly when the text has a digit; it is the first decimal when that is at most 5, and 5 otherwise |
| ScraperBase.ExtractRatingOf | python_code/scrapers/base.py:140-163 | any rating written between digit-free text and text that ends the number reads back as its value, capped at 5 |
| ScraperBase.ExtractBrand | python_code/scrapers/base.py:180-199 | `extract_brand`: the first word of the name, or "" for a blank name; ExtractBrandShape states where that word lies in the name |
| ScraperBase.ExtractBrandShape | python_code/scrapers/base.py:180-199 | the brand is empty exactly for a blank name; otherwise it is the first whitespace-free word of the name |
| ScraperBase.IsWithinBudget | python_code/scrapers/base.py:220-239 | `is_within_budget`: no budget accepts everything, otherwise a price at least a truthy minimum and at most the effective maximum; WithinBudgetInterval and WithinBudgetMonotone state it as an interval that flexibility only widens |
| ScraperBase.WithinBudgetInterval | python_code/scrapers/base.py:220-239 | for a non-negative price, the budget test is the interval from the minimum (zero when unset) to the effective maximum |
| ScraperBase.WithinBudgetMonotone | python_code/scrapers/base.py:220-239 | without a budget every price fits, and making a budget flexible with a non-negative percentage never rejects a price it accepted |
| Caching.Lookup | python_code/utils/cache.py:41-78 | a value is returned exactly when the entry exists, is readable, has a value and has not expired; then the store is unchanged, otherwise the entry is deleted |
| Caching.Stored | python_code/utils/cache.py:80-110 | writing adds the key unless the file could not be opened, and leaves every other key alone |
| Caching.ExpiredKeys | python_code/utils/cache.py:147-177 | the entries counted as expired are entries of the store |
| Caching.Cache.constructor | python_code/utils/cache.py:15-28 | the cache starts with the existing files; a zero or missing time to live falls back to the configured one |
| Caching.Cache.Get | python_code/utils/cache.py:41-78 | a disabled cache returns nothing and touches nothing; an enabled one returns and leaves what `Lookup` says |
| Caching.Cache.Set | python_code/utils/cache.py:80-110 | succeeds exactly when enabled and written; an enabled cache ends as `Stored` says |
| Caching.Cache.Delete | python_code/utils/cache.py:112-128 | reports whether the key was there, and removes it |
| Caching.Cache.ClearAll | python_code/utils/cache.py:130-145 | the loop empties the store and counts every file |
| Caching.Cache.ClearExpired | python_code/utils/cache.py:147-177 | the loop removes exactly the expired and unreadable files and counts them |
| Caching.Cache.GetStats | python_code/utils/cache.py:179-216 | total, expired and valid counts agree with the store, valid being total minus expired |
| Caching.RemovedCount | python_code/utils/cache.py:156-177 | removing one more file from the pending set adds one to the count exactly when it is expired |
| Caching.SetThenGet | python_code/utils/cache.py:41-110 | a value written is read back until it expires, and writing one key does not change what another key reads |
| Caching.GetAfterExpiry | python_code/utils/cache.py:63-70 | after its expiry a written value is no longer returned and its file is gone |
| Caching.FailedSetNeverReturnsValue | python_code/utils/cache.py:103-110 | a write that could not open the file leaves reads as they were, and a truncated file reads as nothing |
| Caching.PurgedHasNothingStale | python_code/utils/cache.py:147-177 | after clearing nothing stale is left, every fresh entry is kept as it was, and kept plus removed is the original count |
| Caching.StatsConsistent | python_code/utils/cache.py:208-216 | the expired count never exceeds the total |
| Caching.LexTotal | python_code/utils/cache.py:227 | string order is total |
| Caching.LexTrans | python_code/utils/cache.py:227 | string order is transitive |
| Caching.Insert | python_code/utils/cache.py:227 | inserting adds exactly one entry |
| Caching.InsertMultiset | python_code/utils/cache.py:227 | inserting adds exactly the new entry and keeps the others |
| Caching.InsertSorted | python_code/utils/cache.py:227 | inserting into a key-sorted list keeps it sorted |
| Caching.SortByKey | python_code/utils/cache.py:227 | `sorted(kwargs.items())` is sorted by key and a permutation of the items |
| Caching.SortSorted | python_code/utils/cache.py:227 | sorting an already sorted list changes nothing |
| Caching.KeywordParts | python_code/utils/cache.py:227 | each keyword argument becomes `k=v`, in order |
| Caching.CacheKeyParts | python_code/utils/cache.py:219-228 | when no argument contains the bar separator, the key splits back into the positional arguments followed by the sorted `k=v` parts |
| Caching.CacheKeyFirstPart | python_code/utils/cache.py:219-228 | keys whose first positional arguments differ are different |
| Caching.JoinHead | python_code/utils/cache.py:228 | a joined text starts with its first part, followed by the separator when there is more than one part |
| Candidates.Field.Convert | python_code/agents/researcher_serp.py:159-160 | a missing field gives its default, a present one its converted value, and a failed conversion nothing |
| Candidates.Manufacturer | python_code/agents/researcher_serp.py:169-170 | an empty name gives `Unknown`; a blank but non-empty name has no first word (the product is dropped); otherwise a non-empty word without spaces |
| Candidates.ManufacturerIsFirstWord | python_code/agents/researcher_serp.py:169-170 | for a non-blank name the manufacturer is its first whitespace-separated word |
| Candidates.SingleOffer | python_code/agents/researcher_serp.py:182-189 | the pricing dictionary has exactly one entry, for the retailer, with the given price, stock flag and URL, and no shipping |
| Candidates.SingleReview | python_code/agents/researcher_serp.py:190-196 | the review summary exists exactly when the rating passes the 0-to-5 validator, and then has the given rating and count |
| Candidates.SingleRetailerValid | python_code/agents/researcher_serp.py:173-199 | a product built from one non-negative offer and one accepted review is valid |
| Researcher.NameKey | python_code/agents/researcher.py:138-143 | the normalised name is at most 50 characters, single-spaced and without leading whitespace |
| Researcher.ProductKey | python_code/agents/researcher.py:122-145 | `_normalize_product_key`: the lower-cased manufacturer, a colon, and the model number or the normalised name; ProductKeyShape, DifferentProductsDifferentKeys and SameIdentitySameKey state what it distinguishes |
| Researcher.ProductKeyShape | python_code/agents/researcher.py:122-145 | a key is the lower-case manufacturer and a colon, followed by the lower-case model number when there is one and otherwise the normalised name |
| Researcher.DifferentProductsDifferentKeys | python_code/agents/researcher.py:122-145 | products of one manufacturer with different model numbers, or without model numbers and with different normalised names, get different keys |
| Researcher.NormalizeProductKey | python_code/agents/researcher.py:122-145 | the word-replacing loop computes exactly `ProductKey` |
| Researcher.Absorb | python_code/agents/researcher.py:114-116 | merging a duplicate changes only the offers and reviews of the record already kept |
| Researcher.KeysOfPrefix | python_code/agents/researcher.py:108-118 | the keys of a list are the keys of all but its last product plus that product's key |
| Researcher.DedupMap | python_code/agents/researcher.py:102-120 | the product map has unique keys, exactly the keys of the input, and never more entries than products |
| Researcher.AddProduct | python_code/agents/researcher.py:112-118 | adding a product keeps keys unique, adds its key, grows only for a new key and keeps earlier keys in place |
| Researcher.AddProductEntry | python_code/agents/researcher.py:112-118 | every entry after adding a product is the new product, the merged record, or an untouched earlier entry |
| Researcher.FirstIndex | python_code/agents/researcher.py:108-118 | the position of the first product with a key, or the length when there is none |
| Researcher.FirstIndexPrefix | python_code/agents/researcher.py:108-118 | a first occurrence inside a prefix is the first occurrence in the whole list |
| Researcher.FirstIndexFound | python_code/agents/researcher.py:108-118 | a key of the list has a first occurrence inside it |
| Researcher.FirstIndexAbsent | python_code/agents/researcher.py:108-118 | a key not in the list has no first occurrence |
| Researcher.DedupKeepsFirst | python_code/agents/researcher.py:108-118 | each kept record is the first product with its key, offers and reviews aside |
| Researcher.KeepsFirstEarlier | python_code/agents/researcher.py:108-118 | an entry whose key is not the last product's is carried over from the earlier map |
| Researcher.KeepsFirstNew | python_code/agents/researcher.py:117-118 | the entry for a new key is the last product itself |
| Researcher.KeepsFirstMerged | python_code/agents/researcher.py:112-116 | the entry for a known key keeps the earlier record's identity |
| Researcher.DedupFirstOccurrenceOrder | python_code/agents/researcher.py:106-120 | the unique products come out in the order in which their keys first occur |
| Researcher.NoKeyNoOffer | python_code/agents/researcher.py:108-118 | a key no product has contributes no offer and no review |
| Researcher.DedupMapSnoc | python_code/agents/researcher.py:108-118 | the map after one more product is the map before with that product added |
| Researcher.DedupOffers | python_code/agents/researcher.py:112-118 | for each retailer, a merged product holds the offer and the review of the last duplicate that had one |
| Researcher.OffersMerged | python_code/agents/researcher.py:114-116 | `update` lets the newest duplicate's offer and review win |
| Researcher.AddToMap | python_code/agents/researcher.py:112-118 | one loop step leaves exactly the map `AddProduct` describes |
| Researcher.Deduplicate | python_code/agents/researcher.py:92-120 | the loop returns the values of `DedupMap` in insertion order |
| Researcher.SameIdentitySameKey | python_code/agents/researcher.py:122-145 | records with the same identity have the same key |
| Researcher.DedupUnique | python_code/agents/researcher.py:92-120 | the unique products have pairwise different keys, one per key of the input, never more than the input, none for an empty input |
| Researcher.BudgetArg | python_code/agents/researcher.py:88 | the budget part of the cache key: the text of the budget maximum, or "0" without a budget; ResearchAgent.Search uses it for every key |
| Researcher.SearchCacheKey | python_code/agents/researcher.py:83-90 | `_make_cache_key`: the cache key of the retailer, the category, the budget text and the specification text; SearchKeysDistinct states that the retailers' keys differ |
| Researcher.SearchKeysDistinct | python_code/agents/researcher.py:83-90 | the three retailers get different cache keys for the same requirements |
| Researcher.Gathered | python_code/agents/researcher.py:41-74 | the products gathered over the first n retailers and the cache after them, one `Turn` per retailer; GatheredWithoutCache and ResearchAgent.Search state it |
| Researcher.GatheredWithoutCache | python_code/agents/researcher.py:41-74 | with caching off the cache is untouched and the gathered products are exactly what the scrapers returned, in retailer order |
| Researcher.Turn | python_code/agents/researcher.py:44-74 | one retailer's turn: a fresh non-empty cache hit, otherwise the scraper's products, written back when non-empty and caching is on, or nothing when the scraper raises; TurnSources states it |
| Researcher.TurnSources | python_code/agents/researcher.py:44-74 | a retailer's products come from its fresh cache entry or its scraper; only its own key can change; a non-empty scrape is written with the current time when caching is on |
| Researcher.ResearchAgent.constructor | python_code/agents/researcher.py:21-27 | the agent owns a new cache over the existing files with the configured time to live |
| Researcher.ResearchAgent.Search | python_code/agents/researcher.py:29-81 | the loop over the retailers, each looked up under the key of the retailer, the category, `str` of the budget maximum (or "0") and `str` of the required specifications, leaves the cache and returns the deduplicated products exactly as `Gathered` and `DedupMap` describe |
| SerpResearcher.ShortSpecTexts | python_code/agents/researcher_serp.py:110-113 | only string specification values of at most four words are used, each one taken from the specifications |
| SerpResearcher.BuildSearchQuery | python_code/agents/researcher_serp.py:105-125 | the loop builds exactly `SearchQuery`: category, short specification values among the first three, a short use case, joined and cut to 100 characters |
| SerpResearcher.ShortSpecsOf | python_code/agents/researcher_serp.py:110-113 | the loop over the first three specifications keeps exactly the string values of at most four words, in order |
| SerpResearcher.JoinStartsWithFirst | python_code/agents/researcher_serp.py:119 | a joined text starts with its first part |
| SerpResearcher.SearchQuery | python_code/agents/researcher_serp.py:105-125 | `_build_search_query`: the category, the short spec values of the first three specs and a short use case, joined by spaces and cut to 100 characters; QueryShape and SerpResearcher.BuildSearchQuery state it |
| SerpResearcher.QueryShape | python_code/agents/researcher_serp.py:105-125 | the query is at most 100 characters, starts with the category, uses at most three specification values, and is the whole joined text when that fits |
| SerpResearcher.ParsePrice | python_code/agents/researcher_serp.py:211-228 | the price is never negative, and 0 when the text has no digit |
| SerpResearcher.ParsePriceOf | python_code/agents/researcher_serp.py:211-228 | any price written between digit-free text and text that ends the number (and is no currency sign or comma) reads back as its value, whatever currency signs and commas precede it |
| SerpResearcher.RemoveCharsExtra | python_code/agents/researcher_serp.py:218 | removing extra characters that do not occur changes nothing |
| SerpResearcher.ParsePriceAgreesWithExtractPrice | python_code/agents/researcher_serp.py:211-228 | without euro, pound or yen signs the price parser agrees with the scrapers' `extract_price`, 0 standing for no price |
| SerpResearcher.KNumber | python_code/agents/researcher_serp.py:239-242 | a number followed by `k` is found exactly when the text has such a match, and it is a well-formed decimal |
| SerpResearcher.ParseReviewCount | python_code/agents/researcher_serp.py:230-253 | the count is 0 when the text has no digit |
| SerpResearcher.ReviewCountWithoutK | python_code/agents/researcher_serp.py:244-253 | without a `k` the count is the first run of digits once commas and whitespace are removed |
| SerpResearcher.ReviewCountThousands | python_code/agents/researcher_serp.py:238-242 | digits followed by `k` or `K` count thousands |
| SerpResearcher.WholeValue | python_code/agents/researcher_serp.py:242 | a decimal without fraction has the value of its digits |
| SerpResearcher.KNumberOfThousands | python_code/agents/researcher_serp.py:240 | the `k` pattern matches the whole digit run before the `k` |
| SerpResearcher.DigitRunOfDigits | python_code/agents/researcher_serp.py:240 | a digit run stops at the first non-digit |
| SerpResearcher.NormalizeRetailer | python_code/agents/researcher_serp.py:255-267 | any source mentioning "amazon" in any case is `amazon` |
| SerpResearcher.BlankContainsNothing | python_code/agents/researcher_serp.py:255-267 | a blank source mentions no retailer |
| SerpResearcher.NormalizeRetailerShape | python_code/agents/researcher_serp.py:255-267 | no retailer name exactly for a blank non-empty source (where `split()[0]` raises); otherwise one lower-case word without spaces |
| SerpResearcher.KnownNames | python_code/agents/researcher_serp.py:259-267 | the fixed names are retailer names |
| SerpResearcher.NotContains | python_code/agents/researcher_serp.py:259-263 | no match at any position means the pattern is absent |
| SerpResearcher.NoMatchAt | python_code/agents/researcher_serp.py:259-263 | one differing character rules out a match at that position |
| SerpResearcher.ContainsInSlice | python_code/agents/researcher_serp.py:259-267 | a pattern found in a slice is found in the text |
| SerpResearcher.LowerSlice | python_code/agents/researcher_serp.py:257-267 | lower-casing commutes with slicing |
| SerpResearcher.KnownNamesAreFixed | python_code/agents/researcher_serp.py:255-267 | `amazon`, `walmart`, `bestbuy` and `unknown` normalise to themselves |
| SerpResearcher.WordIsFixed | python_code/agents/researcher_serp.py:265-267 | a retailer name mentioning no known retailer normalises to itself |
| SerpResearcher.FirstWordMentions | python_code/agents/researcher_serp.py:265-267 | a source that does not mention a pattern has a first word that does not either |
| SerpResearcher.NormalizeRetailerIdempotent | python_code/agents/researcher_serp.py:255-267 | normalising a normalised retailer name changes nothing |
| SerpResearcher.ExtractShoppingResult | python_code/agents/researcher_serp.py:127-209 | an accepted result is a valid one-retailer product whose price is the parsed price, positive and within the effective maximum |
| SerpResearcher.ShoppingResultShape | python_code/agents/researcher_serp.py:151-199 | the product's one offer is in stock at the normalised retailer, its manufacturer is the name's first word, and name and category are kept |
| SerpResearcher.ShoppingResultAccepted | python_code/agents/researcher_serp.py:140-199 | a result with an acceptable price, non-blank source and name, and a rating in 0 to 5 is accepted |
| SerpResearcher.AcceptedResults | python_code/agents/researcher_serp.py:91-94 | the accepted products are never more than the results, and each is an accepted offer |
| SerpResearcher.CollectResults | python_code/agents/researcher_serp.py:85-96 | the loop keeps the accepted products among the first `limit` results, in order, so at most `limit` |
| SerpResearcher.SearchResults | python_code/agents/researcher_serp.py:26-103 | at most `limit` products, each an accepted offer, and none when the search fails |
| SerpResearcher.Truncate | python_code/agents/researcher_serp.py:75 | `int()` of a float truncates toward zero |
| SerpResearcher.Request | python_code/agents/researcher_serp.py:66-75 | the request carries the built query, `num` 20, and the `tbs` price filter exactly when there is a budget |
| SerpResearcher.PriceFilter | python_code/agents/researcher_serp.py:75 | the `tbs` value `mr:1,price:1,ppr_max:{int(max)}`; PriceFilterCap states the cap it carries |
| SerpResearcher.PriceFilterCap | python_code/agents/researcher_serp.py:74-75 | the filter's `ppr_max` is the whole part of a non-negative budget maximum |
| SerpResearcher.Search | python_code/agents/researcher_serp.py:26-103 | sends the request for the requirements and returns what `SearchResults` says for its response |
| PerplexityResearcher.ConvertToProduct | python_code/agents/researcher_perplexity.py:187-253 | an accepted item is a valid one-retailer product with a positive price within the effective maximum, the item's non-empty name, the category, the lower-cased retailer (default `unknown`) and the item's stock flag (default in stock) |
| PerplexityResearcher.ConvertAccepts | python_code/agents/researcher_perplexity.py:187-253 | an item with a non-blank name, an acceptable price, a rating in 0 to 5 and a convertible review count is accepted |
| PerplexityResearcher.Converted | python_code/agents/researcher_perplexity.py:175-178 | the converted items are never more than the items, and each is an accepted offer |
| PerplexityResearcher.ConvertedOffers | python_code/agents/researcher_perplexity.py:175-178 | every product kept by the filtering loop is an accepted offer |
| PerplexityResearcher.ConvertedAppend | python_code/agents/researcher_perplexity.py:175-178 | converting two lists one after the other is converting their concatenation |
| PerplexityResearcher.ParsedProducts | python_code/agents/researcher_perplexity.py:151-185 | no braces, or a slice that does not decode, give no products; whatever is returned is accepted offers |
| PerplexityResearcher.ParseProductsFromResponse | python_code/agents/researcher_perplexity.py:151-185 | the method returns exactly `ParsedProducts`: the decoded `products` list filtered through the conversion |
| PerplexityResearcher.SearchResults | python_code/agents/researcher_perplexity.py:32-103 | a failed chat call gives no products, and every product is an accepted offer |
| WebSearchResearcher.StringTexts | python_code/agents/researcher_websearch.py:142-145 | only string specification values are used, each taken from the specifications |
| WebSearchResearcher.BuildSearchQuery | python_code/agents/researcher_websearch.py:130-147 | the method builds exactly the category, the `site:` filter, the budget hint and the string values among the first two specifications, joined by spaces |
| WebSearchResearcher.WebQueryShape | python_code/agents/researcher_websearch.py:130-147 | the query is the category, a space and the site filter, then the budget hint when there is a budget, then at most two specification values, each after a space |
| WebSearchResearcher.ProductId | python_code/agents/researcher_websearch.py:152 | the product id: the retailer, '_' and the first 20 characters of the name (or "unknown") with spaces made '_'; ProductIdShape states it character by character |
| WebSearchResearcher.ProductIdShape | python_code/agents/researcher_websearch.py:152 | the id is the retailer and `_` followed by the first 20 characters of the name (or `unknown`) with each space made `_` |
| WebSearchResearcher.ConvertToProduct | python_code/agents/researcher_websearch.py:149-185 | a converted item is a valid product with one offer and one review, both at the given retailer |
| WebSearchResearcher.ConvertedShape | python_code/agents/researcher_websearch.py:149-185 | the offer is in stock under the item's link, with the retailer-and-name id, the item's name, the category and the name's first word as manufacturer |
| WebSearchResearcher.ConvertRefuses | python_code/agents/researcher_websearch.py:149-185 | an item is refused exactly when a conversion or validator raises: a blank name, an unconvertible number, a negative price or a rating outside 0 to 5 |
| WebSearchResearcher.ConvertIgnoresBudget | python_code/agents/researcher_websearch.py:149-185 | only the category of the requirements is read: no budget test |
| WebSearchResearcher.AllOrNothing | python_code/agents/researcher_websearch.py:116-128 | a successful run converts every item |
| WebSearchResearcher.AllOrNothingContents | python_code/agents/researcher_websearch.py:116-121 | each converted product is its item's conversion, in order |
| WebSearchResearcher.AllOrNothingRefuses | python_code/agents/researcher_websearch.py:116-128 | the retailer is abandoned exactly when some item does not convert |
| WebSearchResearcher.RetailerResults | python_code/agents/researcher_websearch.py:59-128 | no products when the call fails; every product is a single-retailer product of this retailer |
| WebSearchResearcher.SearchRetailer | python_code/agents/researcher_websearch.py:59-128 | the method returns exactly `RetailerResults`: the list, the object's `products` or nothing, converted all or nothing |
| WebSearchResearcher.ConvertDecoded | python_code/agents/researcher_websearch.py:107-128 | a decoded reply gives its list, its object's `products` or nothing, converted all or nothing, and a reply that did not decode gives no products, exactly as `DecodedResults` says |
| WebSearchResearcher.ConvertItems | python_code/agents/researcher_websearch.py:116-128 | the loop stops at the first item that does not convert and otherwise converts them all, as `AllOrNothing` says |
| WebSearchResearcher.AllResults | python_code/agents/researcher_websearch.py:23-57 | every product is a single-retailer product of one of the searched retailers |
| WebSearchResearcher.Search | python_code/agents/researcher_websearch.py:23-57 | the method returns `AllResults` for Amazon, Walmart and Best Buy |
| WebSearchResearcher.SearchEach | python_code/agents/researcher_websearch.py:38-57 | the loop concatenates the retailers' results in order |
| WebSearchResearcher.SearchOrder | python_code/agents/researcher_websearch.py:36-57 | the products are Amazon's, then Walmart's, then Best Buy's |
| Llm.SelectProvider | python_code/utils/llm.py:13-29 | a provider is chosen exactly when the lower-cased requested (or configured) name is its name; any other name is the `ValueError` |
| Llm.SelectProviderIgnoresCase | python_code/utils/llm.py:21-29 | a name and its lower-case form select the same provider |
| Llm.JsonText | python_code/utils/llm.py:167-182 | the text handed to the decoder has no whitespace at either end |
| Llm.DecodedText | python_code/utils/llm.py:184-205 | a failure happens only when the text itself does not decode, and reports the text's length and a preview that is its first characters, at most 500 |
| Llm.DecodedTextCases | python_code/utils/llm.py:184-205 | text that decodes is returned decoded; text that does not decode and has no `{` before a `}` fails |
| Llm.ExtractedJson | python_code/utils/llm.py:162-205 | `extract_json`: the fence-stripped text decoded directly or through its brace slice; DecodedText, DecodedTextCases, UnfencedReply, JsonFencedReply and PreambleDropped state it |
| Llm.ExtractJson | python_code/utils/llm.py:162-205 | the method returns exactly `ExtractedJson`: fence removal, stripping, then decoding |
| Llm.Decode | python_code/utils/llm.py:184-205 | the method returns exactly `DecodedText`: a direct decode, else the brace slice, else the failure |
| Llm.FindIsFirst | python_code/utils/llm.py:172-173 | a match with none before it is what `find` returns |
| Llm.UnfencedReply | python_code/utils/llm.py:167-182 | a reply without a fence is decoded from its stripped text |
| Llm.JsonFencedReply | python_code/utils/llm.py:170-186 | a ```json fence is removed and its stripped body decoded |
| Llm.PreambleDropped | python_code/utils/llm.py:190-196 | an object after a preamble without braces is decoded when the whole text is not |
| Llm.Call | python_code/utils/llm.py:48-84 | without JSON mode the reply is returned as it is; with it, the call succeeds exactly when the extraction does, with its value |
| Llm.TextParts | python_code/utils/llm.py:150-160 | there are never more text parts than blocks |
| Llm.TextPartsAppend | python_code/utils/llm.py:154-159 | the parts of two block lists are the parts of each, in order |
| Llm.ThinkingBlockIgnored | python_code/utils/llm.py:156-157 | a thinking block contributes nothing |
| Llm.TextPartsOfTextBlocks | python_code/utils/llm.py:150-160 | when no block is a thinking block and all have text, the parts are exactly the blocks' texts |
| Llm.ExtractClaudeContent | python_code/utils/llm.py:150-160 | the loop returns the text parts joined by newlines |
| Llm.ChatGemini | python_code/utils/llm.py:292-323 | all messages but the last become history turns in order, `user` kept and every other role made `model`; the system prompt goes before the last message only without history; an empty conversation raises |
| AmazonScraper.AsinFrom | python_code/scrapers/amazon.py:202-204 | a code read after a path is ten upper-case letters or digits taken from the URL at that place |
| AmazonScraper.AsinAt | python_code/scrapers/amazon.py:202 | a match of `/dp/` or `/gp/product/` followed by a code yields a well-formed code |
| AmazonScraper.AsinSearch | python_code/scrapers/amazon.py:202 | the search finds the leftmost position with a match, and none means no match anywhere after the start |
| AmazonScraper.ExtractAsin | python_code/scrapers/amazon.py:191-206 | a non-empty `data-asin` wins; otherwise a non-empty result is a well-formed code matched in the URL, and no match gives "" |
| AmazonScraper.ExtractAsinLeftmost | python_code/scrapers/amazon.py:198-204 | without `data-asin` the code is the one of the leftmost match |
| AmazonScraper.AsinAtNeedsSlash | python_code/scrapers/amazon.py:202 | a match starts with `/d` or `/g` |
| AmazonScraper.BaseUrlHasNoPath | python_code/scrapers/amazon.py:20 | no match starts inside the site prefix of an absolute URL |
| AmazonScraper.DetailsUrl | python_code/scrapers/amazon.py:222 | the details URL is the site followed by `/dp/` |
| AmazonScraper.DetailsUrlAsin | python_code/scrapers/amazon.py:191-222 | the code is read back from the details URL built from it, whatever follows |
| AmazonScraper.AbsoluteUrl | python_code/scrapers/amazon.py:128-132 | no link gives ""; a link starting with `/` is prefixed with the site; any other link is kept; the result never starts with `/` |
| AmazonScraper.AbsoluteUrlIdempotent | python_code/scrapers/amazon.py:128-132 | making an absolute URL absolute again changes nothing |
| AmazonScraper.KeepDigits | python_code/scrapers/amazon.py:148 | filtering keeps only digits and never lengthens the text |
| AmazonScraper.ReviewCount | python_code/scrapers/amazon.py:141-150 | a text without digits counts 0 (the `ValueError` of `int("")`) |
| AmazonScraper.KeepDigitsIgnoresNonDigits | python_code/scrapers/amazon.py:146-148 | removing commas first makes no difference to the digits kept |
| AmazonScraper.KeepDigitsOfDigits | python_code/scrapers/amazon.py:148 | a digit string is kept whole |
| AmazonScraper.KeepDigitsAppend | python_code/scrapers/amazon.py:148 | the digits of two texts are the digits of each, in order |
| AmazonScraper.ReviewCountOfNumber | python_code/scrapers/amazon.py:141-150 | a number printed between texts without digits is read back exactly |
| AmazonScraper.ReviewCountSeparator | python_code/scrapers/amazon.py:146 | a thousands comma does not change the count |
| AmazonScraper.AmazonProductId | python_code/scrapers/base.py:165-178 | the product id is at most 16 characters |
| AmazonScraper.AcceptedPrice | python_code/scrapers/amazon.py:115-125 | an accepted price is positive and within the budget |
| AmazonScraper.AmazonProduct | python_code/scrapers/amazon.py:162-187 | the product is a valid Amazon offer with the given name, price, URL, rating, count, ASIN as model number and the requirements' category |
| AmazonScraper.ItemRating | python_code/scrapers/amazon.py:135-138 | the rating is in 0 to 5, and 0 without a rating element |
| AmazonScraper.ExtractProductFromItem | python_code/scrapers/amazon.py:105-189 | a product is built exactly when the item has a title and an accepted price, and it is an accepted Amazon offer |
| AmazonScraper.ExtractedFields | python_code/scrapers/amazon.py:105-189 | the product's name, brand, id, price, URL, ASIN, review count and rating are each read from the item as the helpers say |
| AmazonScraper.PriceRefusal | python_code/scrapers/amazon.py:115-125 | a priced item is refused exactly when its text has no digit, its number is 0, or it is outside the budget |
| AmazonScraper.Extracted | python_code/scrapers/amazon.py:75-103 | never more products than result elements |
| AmazonScraper.ExtractedOffers | python_code/scrapers/amazon.py:75-103 | each extracted product is an accepted Amazon offer read from one readable element of the page |
| AmazonScraper.ExtractedAppend | python_code/scrapers/amazon.py:89-101 | extraction goes element by element, keeping page order |
| AmazonScraper.UnreadableSkipped | python_code/scrapers/amazon.py:96-101 | an element that raises is skipped without affecting the others |
| AmazonScraper.ExtractProducts | python_code/scrapers/amazon.py:75-103 | the loop returns exactly `Extracted` |
| AmazonScraper.SliceTo | python_code/scrapers/amazon.py:66 | Python's `s[:n]` is a prefix of length `n` (capped), or for negative `n` the list without its last `-n` elements |
| AmazonScraper.SearchResults | python_code/scrapers/amazon.py:25-73 | a page that fails gives nothing; otherwise a prefix of the extracted products, at most `limit` of them |
| AmazonScraper.Search | python_code/scrapers/amazon.py:25-73 | the method returns exactly `SearchResults` |
| AmazonScraper.SearchKeepsShortPages | python_code/scrapers/amazon.py:66 | when no more than `limit` products are extracted, all are returned |
| AmazonScraper.ProductDetails | python_code/scrapers/amazon.py:208-240 | details exist exactly for a non-empty ASIN whose page was fetched, and they carry the ASIN and its `/dp/` URL |
| AmazonScraper.DetailsRoundTrip | python_code/scrapers/amazon.py:191-240 | the ASIN is read back from the URL in its details |
| Collector.SharesPhrase | python_code/agents/collector.py:174-178 | true exactly when some phrase of the list occurs in both texts |
| Collector.IsSimilarQuestion | python_code/agents/collector.py:161-178 | `_is_similar_question`: both lower-cased questions contain one of the key phrases; SimilarMeansSharedPhrase, SimilarSymmetric, SimilarToItself and SimilarIgnoresCase state it |
| Collector.SimilarMeansSharedPhrase | python_code/agents/collector.py:161-178 | two questions are similar exactly when some key phrase occurs in both, lower-cased |
| Collector.SimilarSymmetric | python_code/agents/collector.py:161-178 | similarity does not depend on the order of the two questions |
| Collector.SimilarToItself | python_code/agents/collector.py:161-178 | a question is similar to itself exactly when it mentions a key phrase; one that mentions none is similar to nothing, so it can be asked again |
| Collector.SimilarIgnoresCase | python_code/agents/collector.py:164-165 | lower-casing a question first changes nothing |
| Collector.FreshFrom | python_code/agents/collector.py:100-104 | the search from a position finds the first suggestion not similar to any asked question, or reports that all are |
| Collector.FreshSuggestion | python_code/agents/collector.py:100-104 | the chosen suggestion is the first one not similar to any asked question, and none means every suggestion was |
| Collector.AskedNotRepeated | python_code/agents/collector.py:100-104 | a suggestion already asked that mentions a key phrase is never chosen again |
| Collector.FallbackQuestion | python_code/agents/collector.py:150-159 | the fixed question asks about the first of budget, use case and specifications that is missing, and is the general question otherwise or without requirements |
| Collector.ChosenQuestion | python_code/agents/collector.py:91-159 | the first fresh suggestion when there is one; else the stripped generated question; else the fallback question |
| Collector.FirstSuggestionFirst | python_code/agents/collector.py:100-104 | before anything was asked the first suggestion is asked |
| Collector.FieldLabel | python_code/agents/collector.py:82 | the label of a field name keeps its length |
| Collector.FieldLabelShape | python_code/agents/collector.py:82 | underscores become spaces and a lower-case letter starting a word is capitalised |
| Collector.SpecItems | python_code/agents/collector.py:78 | each specification becomes one `key: value` item, in order |
| Collector.Bullets | python_code/agents/collector.py:86-87 | each text becomes one `- ` line, in order |
| Collector.FieldLines | python_code/agents/collector.py:81-82 | each missing field becomes one `- ` line with its label, in order |
| Collector.KnownLines | python_code/agents/collector.py:70-78 | the known part is the header, then one line per set field in the order category, budget, use case, specifications, each with its text |
| Collector.ContextLines | python_code/agents/collector.py:61-89 | the lines `_build_context` joins; KnownLines and ContextShape state each part in order |
| Collector.ContextShape | python_code/agents/collector.py:61-89 | after what is known come the need header and one line per missing field in order, then, when there are suggestions, their header and the first three of them |
| Collector.KnownSpecsCapped | python_code/agents/collector.py:78 | the specification line names at most three specifications |
| Collector.BuildContext | python_code/agents/collector.py:61-89 | the method builds the context lines joined by newlines |
| Collector.FirstFresh | python_code/agents/collector.py:100-104 | the loop finds exactly `FreshSuggestion` |
| Collector.AnySimilar | python_code/agents/collector.py:103 | the loop decides exactly whether the question is similar to an asked one |
| Wrappers.AnyOf | python_code/agents/collector.py:103 | `any` over a list is true exactly when the predicate holds for some element |
| Collector.CollectorAgent.constructor | python_code/agents/collector.py:17-20 | no question has been asked yet |
| Collector.CollectorAgent.GenerateQuestion | python_code/agents/collector.py:91-159 | the method returns exactly `ChosenQuestion` for the questions asked so far |
| Collector.CollectorAgent.Gather | python_code/agents/collector.py:29-59 | the chosen question is appended to the asked questions and the user's answer is returned |
| Collector.GatherNotRepeated | python_code/agents/collector.py:29-104 | once a key-phrase suggestion is asked, the next gather with the same suggestions does not choose it again |
| Analyzer.Insert | python_code/agents/analyzer.py:194-197 | inserting an element into a ranking adds exactly that element to its multiset of members |
| Analyzer.InsertSorted | python_code/agents/analyzer.py:194-197 | inserting into a ranking sorted by the key (rating first, then lower price, descending) keeps it sorted |
| Analyzer.Rank | python_code/agents/analyzer.py:194-197 | the fallback sort is a permutation of the products and is sorted: no product ranks before an earlier one |
| Analyzer.SortedEarlier | python_code/agents/analyzer.py:194-197 | in the sorted list, a product that ranks before another always comes earlier |
| Analyzer.TopProducts | python_code/agents/analyzer.py:194-198 | the fallback shows min(number of products, 5) products, the first ones of the ranking |
| Analyzer.TopProductsAreBest | python_code/agents/analyzer.py:194-198 | no product of the input that ranks before a shown product is missing: it is shown earlier |
| Analyzer.TopProductsFromInput | python_code/agents/analyzer.py:194-198 | every shown product is one of the input, shown at most as often as it occurs |
| Analyzer.NumberedPrefix | python_code/agents/analyzer.py:77 | the numbered blocks of the first products open the numbered blocks of all products |
| Analyzer.LinkRows | python_code/agents/analyzer.py:222-223 | one link row per retailer URL, in order, written as a markdown link to that URL under the title-cased retailer name |
| Analyzer.EntryShown | python_code/agents/analyzer.py:210-225 | recommendation k+1 of the fallback is the entry of the k-th product, placed after the entries of all earlier products |
| Analyzer.WriteEntry | python_code/agents/analyzer.py:211-225 | the loop writing one recommendation produces its heading, best price, rating, links and blank line |
| Analyzer.WriteEntries | python_code/agents/analyzer.py:210-225 | the loop over the top products produces their entries numbered from 1 |
| Analyzer.FallbackReport | python_code/agents/analyzer.py:191-227 | the fallback report is the fixed header with the readable requirements, then the entries of the top five, joined by newlines |
| Analyzer.PriceRows | python_code/agents/analyzer.py:89-91 | one pricing row per retailer, in order, with its title-cased name, its price and its stock status |
| Analyzer.UrlRows | python_code/agents/analyzer.py:118-120 | one link row per retailer, in order, showing at most the first 80 characters of the URL followed by an ellipsis |
| Analyzer.RatingRowsCount | python_code/agents/analyzer.py:98-104 | the rating rows are exactly as many as the retailers with at least one review, which the average rating is taken over |
| Analyzer.RatedCountAppend | python_code/agents/analyzer.py:99-100 | the count of reviewed retailers adds up over concatenated review lists |
| Analyzer.SpecRowsListed | python_code/agents/analyzer.py:111-115 | a row is among the specification rows exactly when some specification other than "asin" renders as it |
| Analyzer.RatingRowsOf | python_code/agents/analyzer.py:99-104 | the loop over the reviews writes exactly the rating rows |
| Analyzer.SpecRowsOf | python_code/agents/analyzer.py:113-115 | the loop over the specifications writes exactly the specification rows |
| Analyzer.PriceRowsOf | python_code/agents/analyzer.py:89-91 | the loop over the pricing writes exactly the pricing rows |
| Analyzer.UrlRowsOf | python_code/agents/analyzer.py:119-120 | the loop over the retailer links writes exactly the link rows |
| Analyzer.DescribeProduct | python_code/agents/analyzer.py:78-120 | the block of one product: heading between two rules, manufacturer, model when known, pricing with the best price when a retailer is named, ratings with the average when positive, specifications when there are some, links |
| Analyzer.DescribeProducts | python_code/agents/analyzer.py:77-120 | the loop over the products writes their blocks numbered from 1 |
| Analyzer.PrepareProductData | python_code/agents/analyzer.py:73-122 | the product summary is the blocks of all products joined by newlines |
| Analyzer.ReportOf | python_code/agents/analyzer.py:29-71 | `analyze_and_report` as a value: the no-products report, the model's report or the fallback; AnalyzeAndReport states it |
| Analyzer.AnalyzeAndReport | python_code/agents/analyzer.py:29-71 | no products give the no-products report and only they do; otherwise the language model's report on the product summary, or the fallback report when that call fails |
| Orchestrator.ChooseResearcher | python_code/orchestrator.py:29-38 | a researcher is chosen exactly for "perplexity" and "serpapi", the matching one; any other name is an error |
| Orchestrator.ValidConfigurationHasResearcher | python_code/orchestrator.py:29-38 | a configuration that passes validation always names a search provider the orchestrator can construct |
| Orchestrator.Finish | python_code/orchestrator.py:176-189 | gathering returns requirements exactly when they are complete, and then returns them unchanged |
| Orchestrator.Advance | python_code/orchestrator.py:130-174 | a round that goes on counts one more iteration and appends the answer to the history; a quit word or empty answer cancels; the early exit applies exactly from the second round when the planner still asks for more and the score is at least 0.7 |
| Orchestrator.Start | python_code/orchestrator.py:98-109 | the loop starts at iteration 0 with the initial input as the only message |
| Orchestrator.RestGatheredComplete | python_code/orchestrator.py:115-189 | whatever path the loop takes, requirements it returns are complete |
| Orchestrator.GatherOutcome | python_code/orchestrator.py:85-189 | `_gather_requirements` as a value: how gathering ends and how many questions were asked; GatheredIsComplete, AtMostFiveRounds, QuitCancels, DecisionEndsLoop and HighScoreEndsLoop state it |
| Orchestrator.GatheredIsComplete | python_code/orchestrator.py:85-189 | gathering returns requirements only when they are complete |
| Orchestrator.RestRounds | python_code/orchestrator.py:112-116 | the rounds played never exceed the maximum of five and never go back |
| Orchestrator.AtMostFiveRounds | python_code/orchestrator.py:112-116 | the user is asked at most five times |
| Orchestrator.QuitCancels | python_code/orchestrator.py:136-138 | an empty answer or quit, exit or cancel in any letter case cancels gathering in that round |
| Orchestrator.DecisionEndsLoop | python_code/orchestrator.py:115 | once the planner stops asking for more information, the loop ends and the final completeness check decides |
| Orchestrator.HighScoreEndsLoop | python_code/orchestrator.py:169-174 | from the second round on, a score of at least 0.7 ends the loop although the planner still asks for more |
| Orchestrator.NoResultsReport | python_code/orchestrator.py:254-279 | the no-results report contains the readable requirements |
| Orchestrator.ReportFilename | python_code/orchestrator.py:247-249 | the file name `_save_report` proposes from the category and the timestamp; ReportFilenameShape states its parts |
| Orchestrator.ReportFilenameShape | python_code/orchestrator.py:247-249 | a report's file name starts with "report_", ends with ".md", keeps at most 30 characters of the category and has no space unless the timestamp has one |
| Orchestrator.RunResult | python_code/orchestrator.py:42-83 | `run` after gathering: no report, a failure, the no-results report or the analysis with its save name; RunNeedsCompleteRequirements and RunAnalysisHasProducts state it |
| Orchestrator.RunNeedsCompleteRequirements | python_code/orchestrator.py:52-74 | a run produces a report from research only for complete requirements; cancelled or incomplete gathering gives the empty report |
| Orchestrator.RunAnalysisHasProducts | python_code/orchestrator.py:60-68 | an empty search is answered by the no-results report, so the analyzer never reports on no products |
| Orchestrator.WorkflowOrchestrator.constructor | python_code/orchestrator.py:25-40 | the orchestrator keeps the chosen provider and a fresh collector that has asked nothing |
| Orchestrator.WorkflowOrchestrator.GatherRequirements | python_code/orchestrator.py:85-189 | the loop ends as the round-by-round definition says and the collector records one asked question per round played |
| Orchestrator.WorkflowOrchestrator.Run | python_code/orchestrator.py:42-83 | the run gathers, researches with the researcher of the provider chosen at construction, answers no products with the no-results report, analyzes otherwise and names the report file when saving is on; an exception gives the empty report unless debugging |
| Orchestrator.NewOrchestrator | python_code/orchestrator.py:25-40 | construction succeeds exactly for a known search provider, with that provider, and otherwise fails with the provider error |
| Config.Setting | python_code/config.py:25 | a setting is the lower-cased value of its variable, or the lower-cased default when unset |
| Config.FlagIgnoresCase | python_code/config.py:44-50 | a flag does not depend on the letter case of its value |
| Config.FlagSpellings | python_code/config.py:44-50 | "True" and "TRUE" switch a flag on, "yes" does not |
| Config.Load | python_code/config.py:23-50 | each setting is its variable or its default: providers lower-cased, flags on only for "true" in any case, numbers as given |
| Config.DefaultSettings | python_code/config.py:25-50 | with nothing set: Claude, SerpApi, no debugging, caching and saving on, 4 hours, 10 products per retailer |
| Config.Errors | python_code/config.py:55-83 | the problems found are exactly those that apply, each once, in the order of the checks |
| Config.LlmErrors | python_code/config.py:58-65 | the language-model problems are exactly those of the first three checks that apply, in check order |
| Config.SearchErrors | python_code/config.py:68-83 | the search problems are exactly those of the last three checks that apply, in check order |
| Config.ValidIff | python_code/config.py:52-86 | validation passes exactly when the language-model provider is claude or gemini with its key and the search provider is serpapi or perplexity with its key |
| Config.AtMostTwoErrors | python_code/config.py:55-83 | at most one language-model problem and one search problem are reported |
| Config.ErrorLines | python_code/config.py:86 | one line per problem, in order, each its message after "  - " |
| Config.JoinHasPart | python_code/config.py:86 | every part occurs in the text the parts are joined into |
| Config.ErrorTextHasLine | python_code/config.py:86 | the error text contains the line of each problem listed |
| Config.ErrorText | python_code/config.py:80-86 | the `ValueError` message: the header, then one line per problem; ErrorTextHasLine and ErrorTextListsAll state that every problem is named |
| Config.ErrorTextListsAll | python_code/config.py:55-86 | every problem that applies is named in the error text |
| Config.Validate | python_code/config.py:52-86 | validation fails exactly when some problem applies, with the text listing all of them |
| Config.CheckLlm | python_code/config.py:55-65 | the first three checks append exactly the language-model problems |
| Config.CheckSearch | python_code/config.py:67-83 | the last three checks append exactly the search problems to those found before |

## Left out

- Network and SDK calls are not modelled. This covers the Anthropic, Gemini and Perplexity clients, SerpApi and the HTTP `get` with its retries and back-off. Their answers are parameters: a reply, a response, or `None` when the call raises.
- HTML parsing is not modelled. An Amazon result element is a record of the texts and attributes the scraper reads.
- The Amazon search URL, with `quote_plus` encoding, is not modelled.
- `json.loads` and `json.dumps` are not modelled. Parsing is a partial function given as a parameter.
- MD5 digests are not modelled. Product ids use a digest function given as a parameter. Cache file names are taken to be injective in the key.
- Floating-point formatting is not modelled: `:.2f`, `:.1f`, `:.0f` and `str(float)` are functions given as parameters. Prices and ratings are reals, so rounding is not modelled. The one truncation that matters, `int(float(n) * 1000)` in the review-count parser, is written out as a floor.
- Character classes are ASCII only. Whitespace is the ASCII whitespace Python recognises (space, tab, line feed, vertical tab, form feed, carriage return and the separators U+001C to U+001F); `str.lower`, `str.title`, `str.isspace` and `\d` leave non-ASCII letters, digits and spaces (such as U+0085, U+00A0 or Arabic-Indic digits) unchanged or unclassified, whereas Python's Unicode-aware versions would change or classify some of them.
- `model_dump_readable` is not modelled. The rendered requirements are a text given as a parameter.
- The wording of every language-model prompt is not modelled, including the analysis prompt and the Perplexity and web-search prompts. The web-search query is built and proved, but the source does not put it into the prompt either.
- The analyzer's no-products report is a fixed text, and its wording is not modelled.
- Timestamps are not modelled. `datetime.now()` values are left out of the product records, and the report name takes its timestamp as a parameter.
- Time is not modelled. `time.sleep` between retailers is left out, and the cache clock is an integer parameter counted in seconds.
- The terminal user interface, the CLI entry point and debug printing are not modelled. `save_report_prompt` is not modelled either: a run reports only the file name the report would be saved under.
- The Best Buy and Walmart scrapers are not modelled. They always return no products.
- `load_dotenv` and `setup_directories` are not modelled. Environment values are given already parsed, so an `int()` that fails on a malformed number is not modelled.
- A `KeyboardInterrupt` during a run is not modelled. In the source it ends the run with the empty report.
- Researcher.ResearchAgent.Search: when debugging is on, a scraper that raises makes the source re-raise. The model always skips that scraper, as the source does with debugging off.
- The researcher constructors' checks for a missing SerpApi or Perplexity key are not modelled separately. `Config.Validate` states the same requirement for the configured provider.
- Planner.Merge: `list(set(a + b))` has hash order in Python. The model keeps the first-occurrence order, and its lemmas state only set equality and the absence of duplicates.
- Analyzer.Rank: the lemmas state that the ranking is sorted and a permutation. They do not state that ties keep the input order, although the definition does keep it.
- Orchestrator.WorkflowOrchestrator.GatherRequirements: the text of the conversation history is not stated beyond its construction in `Advance`.
