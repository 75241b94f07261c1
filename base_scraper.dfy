/** The shared helpers of every retailer scraper (scrapers/base.py): the
    search query, the price and rating scanners, the brand guess and the
    budget test.  Text clean-up is `Strings.CleanText`. */
module ScraperBase {
  import opened Wrappers
  import opened Strings
  import opened Dicts
  import opened Requirements

  /** The number of specifications a retailer query uses. */
  const QuerySpecs: nat := 3

  /** `build_search_query`: the category followed by the scalar values among
      the first three specifications. */
  method BuildSearchQuery(r: UserRequirements) returns (query: string)
    ensures query == Join([r.productCategory] + ScalarTexts(Prefix(r.mustHaveSpecs, QuerySpecs)), " ")
  {
    var specs := Prefix(r.mustHaveSpecs, QuerySpecs);
    var parts := [r.productCategory];
    var i := 0;
    while i < |specs|
      invariant 0 <= i <= |specs|
      invariant parts == [r.productCategory] + ScalarTexts(specs[..i])
    {
      assert specs[..i + 1][..i] == specs[..i];
      var value := specs[i].1;
      if value.IsScalar() {
        parts := parts + [value.Render()];
      }
      i := i + 1;
    }
    assert specs[..i] == specs;
    query := Join(parts, " ");
  }

  /** A retailer query uses at most three specification values, and they
      are the first ones `to_search_query` would use; with at most three
      specifications both queries are built from the same parts. */
  lemma RetailerQueryParts(specs: Specs)
    ensures var short := ScalarTexts(Prefix(specs, QuerySpecs));
      && |short| <= QuerySpecs
      && |short| <= |ScalarTexts(specs)|
      && ScalarTexts(specs)[..|short|] == short
    ensures |specs| <= QuerySpecs ==> ScalarTexts(Prefix(specs, QuerySpecs)) == ScalarTexts(specs)
  {
    var t := Prefix(specs, QuerySpecs);
    ScalarTextsPrefix(specs, |t|);
  }

  predicate HasDigit(s: string) {
    exists i :: 0 <= i < |s| && IsDigit(s[i])
  }

  /** Removing characters that are not digits keeps every digit. */
  lemma {:induction false} RemoveCharsKeepsDigits(s: string, cs: set<char>)
    requires forall c :: c in cs ==> !IsDigit(c)
    ensures HasDigit(s) <==> HasDigit(RemoveChars(s, cs))
  {
    if s != [] {
      var tail := s[1..];
      RemoveCharsKeepsDigits(tail, cs);
      var rest := RemoveChars(tail, cs);
      var r := RemoveChars(s, cs);
      assert s[0] in cs ==> r == rest;
      assert s[0] !in cs ==> r == [s[0]] + rest;
      if HasDigit(s) {
        var i :| 0 <= i < |s| && IsDigit(s[i]);
        if i == 0 {
          assert r[0] == s[0];
        } else {
          assert IsDigit(tail[i - 1]);
          var k :| 0 <= k < |rest| && IsDigit(rest[k]);
          if s[0] !in cs {
            assert r[k + 1] == rest[k];
          }
        }
      }
      if HasDigit(r) {
        var k :| 0 <= k < |r| && IsDigit(r[k]);
        if s[0] !in cs && k == 0 {
          assert IsDigit(s[0]);
        } else {
          assert s[0] !in cs ==> r[k] == rest[k - 1];
          assert HasDigit(rest);
          var j :| 0 <= j < |tail| && IsDigit(tail[j]);
          assert s[j + 1] == tail[j];
        }
      }
    }
  }

  /** The characters `extract_price` deletes before scanning. */
  const PriceNoise: set<char> := {',', '$'}

  /** `extract_price`: the first number after commas and dollar signs are
      removed, or `None` when the text has no digit. */
  function ExtractPrice(text: string): (r: Option<real>)
    ensures r.None? <==> forall i :: 0 <= i < |text| ==> !IsDigit(text[i])
    ensures r.Some? ==> r.value >= 0.0
  {
    if text == [] then None
    else
      RemoveCharsKeepsDigits(text, PriceNoise);
      assert HasDigit(text) <==> HasDigit(RemoveChars(text, PriceNoise));
      match FirstDecimal(RemoveChars(text, PriceNoise))
      case None => None
      case Some(d) =>
        DecimalNonNegative(d);
        Some(d.Value())
  }

  /** `extract_rating`: the first number in the text, clamped to [0, 5]. */
  function ExtractRating(text: string): (r: Option<real>)
    ensures r.None? <==> forall i :: 0 <= i < |text| ==> !IsDigit(text[i])
    ensures r.Some? ==> 0.0 <= r.value <= 5.0
    ensures r.Some? ==>
      var v := FirstDecimal(text).value.Value();
      r.value == (if v > 5.0 then 5.0 else v)
  {
    if text == [] then None
    else
      match FirstDecimal(text)
      case None => None
      case Some(d) =>
        DecimalNonNegative(d);
        var rating := d.Value();
        Some(if rating > 5.0 then 5.0 else rating)
  }

  /** Deleting characters other than digits and the point around a number
      leaves the number in place. */
  lemma NumberAmongNoise(before: string, d: Decimal, after: string, cs: set<char>)
    requires d.Valid()
    requires forall c :: c in cs ==> !IsDigit(c) && c != '.'
    requires after == [] || after[0] !in cs
    ensures RemoveChars(before + DecimalText(d) + after, cs)
      == RemoveChars(before, cs) + DecimalText(d) + RemoveChars(after, cs)
    ensures RemoveChars(after, cs) == [] || RemoveChars(after, cs)[0] == after[0]
    ensures forall i :: 0 <= i < |RemoveChars(before, cs)| ==> RemoveChars(before, cs)[i] in before
  {
    var w := DecimalText(d);
    RemoveCharsAppend(before + w, after, cs);
    RemoveCharsAppend(before, w, cs);
    RemoveCharsNone(w, cs);
    RemoveCharsSubset(before, cs);
  }

  /** Deleting characters only keeps characters of the text. */
  lemma {:induction false} RemoveCharsSubset(s: string, cs: set<char>)
    ensures forall i :: 0 <= i < |RemoveChars(s, cs)| ==> RemoveChars(s, cs)[i] in s
  {
    if s != [] {
      RemoveCharsSubset(s[1..], cs);
    }
  }

  /** A price written after text without digits and before text that ends
      the number (and is not a comma or a dollar sign) is read back exactly,
      whatever commas and dollar signs precede it. */
  lemma ExtractPriceOf(before: string, d: Decimal, after: string)
    requires d.Valid()
    requires forall i :: 0 <= i < |before| ==> !IsDigit(before[i])
    requires EndsNumber(d, after) && (after == [] || after[0] !in PriceNoise)
    ensures ExtractPrice(before + DecimalText(d) + after) == Some(d.Value())
  {
    var text := before + DecimalText(d) + after;
    NumberAmongNoise(before, d, after, PriceNoise);
    var b, a := RemoveChars(before, PriceNoise), RemoveChars(after, PriceNoise);
    assert RemoveChars(text, PriceNoise) == b + DecimalText(d) + a;
    FirstDecimalOfText(b, d, a);
  }

  /** A rating written after text without digits and before text that ends
      the number is read back, capped at 5. */
  lemma ExtractRatingOf(before: string, d: Decimal, after: string)
    requires d.Valid()
    requires forall i :: 0 <= i < |before| ==> !IsDigit(before[i])
    requires EndsNumber(d, after)
    ensures ExtractRating(before + DecimalText(d) + after) == Some(if d.Value() > 5.0 then 5.0 else d.Value())
  {
    FirstDecimalOfText(before, d, after);
  }

  lemma PriceNoiseExample()
    ensures RemoveChars("$1,299.99", PriceNoise) == "1299.99"
  {
    assert RemoveChars("", PriceNoise) == "";
    assert RemoveChars("9", PriceNoise) == "9";
    assert RemoveChars("99", PriceNoise) == "99";
    assert RemoveChars(".99", PriceNoise) == ".99";
    assert RemoveChars("9.99", PriceNoise) == "9.99";
    assert RemoveChars("99.99", PriceNoise) == "99.99";
    assert RemoveChars("299.99", PriceNoise) == "299.99";
    assert RemoveChars(",299.99", PriceNoise) == "299.99";
    assert RemoveChars("1,299.99", PriceNoise) == "1299.99";
  }

  lemma DecimalExample()
    ensures FirstDecimal("1299.99") == Some(Decimal("1299", "99"))
  {
    var t := "1299.99";
    assert FirstDigit(t) == 0;
    assert DigitRun("") == 0;
    assert DigitRun("9") == 1;
    assert DigitRun("99") == 2;
    assert DigitRun(".99") == 0;
    assert DigitRun("9.99") == 1;
    assert DigitRun("99.99") == 2;
    assert DigitRun("299.99") == 3;
    assert DigitRun(t) == 4;
    assert t[4..] == ".99" && t[..4] == "1299" && ".99"[1..] == "99" && "99"[..2] == "99";
  }

  lemma DecimalValueExample()
    ensures Decimal("1299", "99").Valid() && Decimal("1299", "99").Value() == 1299.99
  {
    assert "1299"[..3] == "129" && "129"[..2] == "12" && "12"[..1] == "1" && "1"[..0] == "";
    assert "99"[..1] == "9" && "9"[..0] == "";
    assert DigitsValue("1") == 1;
    assert DigitsValue("12") == 12;
    assert DigitsValue("129") == 129;
    assert DigitsValue("1299") == 1299;
    assert DigitsValue("9") == 9;
    assert DigitsValue("99") == 99;
    assert Pow10(2) == 100;
  }

  /** A price written with a dollar sign and a thousands separator. */
  lemma ExtractPriceExample()
    ensures ExtractPrice("$1,299.99") == Some(1299.99)
  {
    PriceNoiseExample();
    DecimalExample();
    DecimalValueExample();
  }

  /** `extract_brand`: the first whitespace-separated word, "" when the name
      is blank. */
  function ExtractBrand(name: string): (brand: string)
  {
    FirstWord(name).GetOr("")
  }

  /** The brand is empty exactly for a blank name; otherwise it is a word of
      the name that starts at its first non-blank character. */
  lemma ExtractBrandShape(name: string)
    ensures ExtractBrand(name) == "" <==> IsBlank(name)
    ensures ExtractBrand(name) != "" ==>
      var brand := ExtractBrand(name);
      var i := LeadingSpaces(name);
      && NoSpace(brand)
      && i + |brand| <= |name|
      && name[i..i + |brand|] == brand
      && (i + |brand| == |name| || IsSpace(name[i + |brand|]))
  {
    FirstWordExists(name);
    if FirstWord(name).Some? {
      FirstWordShape(name);
    }
  }

  /** `is_within_budget`.  A zero minimum is falsy, so it is not checked. */
  predicate IsWithinBudget(price: real, r: UserRequirements) {
    match r.budget
    case None => true
    case Some(b) =>
      if b.min.Some? && b.min.value != 0.0 then b.min.value <= price <= b.EffectiveMax()
      else price <= b.EffectiveMax()
  }

  /** For a price that is not negative, the budget test is the interval from
      the minimum (zero when unset) to the effective maximum. */
  lemma WithinBudgetInterval(price: real, r: UserRequirements)
    requires price >= 0.0 && r.budget.Some?
    ensures IsWithinBudget(price, r) <==> r.budget.value.min.GetOr(0.0) <= price <= r.budget.value.EffectiveMax()
  {
  }

  /** Without a budget every price fits; a flexible budget never rejects a
      price its plain maximum accepts. */
  lemma WithinBudgetMonotone(price: real, r: UserRequirements)
    requires r.Valid()
    ensures r.budget.None? ==> IsWithinBudget(price, r)
    ensures (&& r.budget.Some? && r.budget.value.flexibilityPercent.Some? && r.budget.value.flexibilityPercent.value >= 0.0
             && IsWithinBudget(price, r.(budget := Some(r.budget.value.(flexible := false)))))
            ==> IsWithinBudget(price, r)
  {
    if r.budget.Some? {
      EffectiveMaxBounds(r.budget.value);
    }
  }
}
