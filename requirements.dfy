/** The requirement record (models/requirements.py): the budget with its
    validators and effective maximum, the user's requirements with the
    completeness test, the list of missing fields and the search query. */
module Requirements {
  import opened Wrappers
  import opened Strings
  import opened Dicts

  /** A value of a `Dict[str, Any]` specification map, as far as the program
      looks at it: `isinstance(v, (str, int, float))` and `str(v)`.  A float
      and any other value keep their `str()` text, which is not modelled. */
  datatype SpecValue = Str(s: string) | Int(i: int) | Bool(b: bool) | Float(text: string) | Other(text: string)
  {
    /** `isinstance(v, (str, int, float))`; `bool` is a subclass of `int`. */
    predicate IsScalar() { !Other? }

    /** `str(v)` */
    function Render(): string {
      match this
      case Str(s) => s
      case Int(i) => IntToString(i)
      case Bool(b) => if b then "True" else "False"
      case Float(t) => t
      case Other(t) => t
    }
  }

  type Specs = Dict<string, SpecValue>

  /** `BudgetConstraint` */
  datatype Budget = Budget(min: Option<real>, max: real, flexible: bool, flexibilityPercent: Option<real>)
  {
    /** What the two field validators let through. */
    predicate Valid() {
      max > 0.0 && (min.Some? ==> min.value >= 0.0)
    }

    /** `get_effective_max`: the maximum raised by the flexibility percentage
        when the budget is flexible and the percentage is set and non-zero. */
    function EffectiveMax(): real {
      if flexible && flexibilityPercent.Some? && flexibilityPercent.value != 0.0 then
        max * (1.0 + flexibilityPercent.value / 100.0)
      else max
    }
  }

  datatype BudgetError = NegativeMinimum | NonPositiveMaximum

  /** Constructing a `BudgetConstraint`: pydantic runs both validators and
      reports every failing field, in declaration order. */
  function MakeBudget(min: Option<real>, max: real, flexible: bool, pct: Option<real>): (r: Result<Budget, seq<BudgetError>>)
    ensures r.Ok? <==> Budget(min, max, flexible, pct).Valid()
    ensures r.Ok? ==> r.value == Budget(min, max, flexible, pct)
    ensures r.Err? ==> (NonPositiveMaximum in r.error <==> max <= 0.0)
    ensures r.Err? ==> (NegativeMinimum in r.error <==> min.Some? && min.value < 0.0)
  {
    var errors :=
      (if min.Some? && min.value < 0.0 then [NegativeMinimum] else []) +
      (if max <= 0.0 then [NonPositiveMaximum] else []);
    if errors == [] then Ok(Budget(min, max, flexible, pct)) else Err(errors)
  }

  /** The effective maximum is the maximum unless the budget is flexible with
      a non-zero percentage, and a non-negative percentage never lowers it. */
  lemma EffectiveMaxBounds(b: Budget)
    requires b.Valid()
    ensures !(b.flexible && b.flexibilityPercent.Some? && b.flexibilityPercent.value != 0.0) ==> b.EffectiveMax() == b.max
    ensures b.flexibilityPercent.Some? && b.flexibilityPercent.value >= 0.0 ==> b.EffectiveMax() >= b.max
    ensures b.EffectiveMax() > 0.0 <== (b.flexibilityPercent.None? || b.flexibilityPercent.value > -100.0)
  {
    if b.flexible && b.flexibilityPercent.Some? && b.flexibilityPercent.value != 0.0 {
      var p := b.flexibilityPercent.value;
      assert b.EffectiveMax() == b.max + b.max * (p / 100.0);
      if p >= 0.0 {
        assert b.max * (p / 100.0) >= 0.0;
      }
      if p > -100.0 {
        var factor := 1.0 + p / 100.0;
        assert factor > 0.0;
        assert b.max * factor > 0.0;
        assert b.EffectiveMax() == b.max * factor;
      }
    }
  }

  /** `UserRequirements` */
  datatype UserRequirements = UserRequirements(
    productCategory: string,
    budget: Option<Budget>,
    useCase: string,
    mustHaveSpecs: Specs,
    niceToHaveSpecs: Specs,
    dealBreakers: seq<string>,
    preferredBrands: seq<string>,
    excludedBrands: seq<string>,
    preferredRetailers: seq<string>,
    priorities: seq<string>,
    completenessScore: real,
    rawInput: string)
  {
    /** The budget, when present, passed its validators. */
    predicate Valid() {
      budget.Some? ==> budget.value.Valid()
    }
  }

  /** `UserRequirements(raw_input=raw)`: every other field at its default. */
  function EmptyRequirements(raw: string): (r: UserRequirements)
    ensures r.Valid() && r.rawInput == raw
  {
    UserRequirements("", None, "", [], [], [], [], [], [], [], 0.0, raw)
  }

  /** `is_complete` */
  predicate IsComplete(r: UserRequirements) {
    && |r.productCategory| > 2
    && r.budget.Some? && r.budget.value.max > 0.0
    && (r.mustHaveSpecs != [] || r.useCase != "")
    && r.completenessScore >= 0.7
  }

  /** `get_missing_fields`: each name appears exactly when its field is
      missing, in the fixed order category, budget, specifications. */
  function MissingFields(r: UserRequirements): (missing: seq<string>)
    ensures "product_category" in missing <==> r.productCategory == ""
    ensures "budget" in missing <==> (r.budget.None? || r.budget.value.max <= 0.0)
    ensures "specifications_or_use_case" in missing <==> (r.mustHaveSpecs == [] && r.useCase == "")
    ensures |missing| <= 3
    ensures forall i, j :: 0 <= i < j < |missing| ==> FieldRank(missing[i]) < FieldRank(missing[j])
  {
    (if r.productCategory == "" then ["product_category"] else []) +
    (if r.budget.None? || r.budget.value.max <= 0.0 then ["budget"] else []) +
    (if r.mustHaveSpecs == [] && r.useCase == "" then ["specifications_or_use_case"] else [])
  }

  /** `get_missing_fields` as written: one check after the other, each
      appending the field's name when it is missing. */
  method GetMissingFields(r: UserRequirements) returns (missing: seq<string>)
    ensures missing == MissingFields(r)
  {
    missing := [];
    if r.productCategory == "" {
      missing := missing + ["product_category"];
    }
    if r.budget.None? || r.budget.value.max <= 0.0 {
      missing := missing + ["budget"];
    }
    if r.mustHaveSpecs == [] && r.useCase == "" {
      missing := missing + ["specifications_or_use_case"];
    }
  }

  /** Position of a field name in the order `get_missing_fields` reports them. */
  function FieldRank(f: string): nat {
    if f == "product_category" then 0 else if f == "budget" then 1 else 2
  }

  /** A complete record has no missing field. */
  lemma CompleteHasNoMissingFields(r: UserRequirements)
    requires IsComplete(r)
    ensures MissingFields(r) == []
  {
  }

  /** The texts of the scalar specification values, in dictionary order:
      the parts the search queries append after the category. */
  function ScalarTexts(specs: Specs): (texts: seq<string>)
    ensures |texts| <= |specs|
  {
    if specs == [] then []
    else
      var last := specs[|specs| - 1].1;
      ScalarTexts(specs[..|specs| - 1]) + (if last.IsScalar() then [last.Render()] else [])
  }

  /** The texts of the first `n` specifications are a prefix of the texts of
      all of them. */
  lemma {:induction false} ScalarTextsPrefix(specs: Specs, n: nat)
    requires n <= |specs|
    ensures var p := ScalarTexts(specs[..n]); |p| <= |ScalarTexts(specs)| && ScalarTexts(specs)[..|p|] == p
    decreases |specs|
  {
    if n < |specs| {
      var init := specs[..|specs| - 1];
      assert init[..n] == specs[..n];
      ScalarTextsPrefix(init, n);
    } else {
      assert specs[..n] == specs;
    }
  }

  /** When every specification value is scalar none is skipped: the texts
      are the rendered values, one per entry, in order. */
  lemma {:induction false} ScalarTextsAll(specs: Specs)
    requires forall i :: 0 <= i < |specs| ==> specs[i].1.IsScalar()
    ensures |ScalarTexts(specs)| == |specs|
    ensures forall i :: 0 <= i < |specs| ==> ScalarTexts(specs)[i] == specs[i].1.Render()
  {
    if specs != [] {
      ScalarTextsAll(specs[..|specs| - 1]);
    }
  }

  /** `to_search_query`: the category followed by the text of every scalar
      specification value, joined by spaces. */
  method ToSearchQuery(r: UserRequirements) returns (query: string)
    ensures query == Join([r.productCategory] + ScalarTexts(r.mustHaveSpecs), " ")
  {
    var specs := r.mustHaveSpecs;
    var parts := [r.productCategory];
    var i := 0;
    while i < |specs|
      invariant 0 <= i <= |specs|
      invariant parts == [r.productCategory] + ScalarTexts(specs[..i])
    {
      assert specs[..i + 1][..i] == specs[..i];
      var value := specs[i].1;
      if value.IsScalar() {
        parts := parts + [value.Render()];
      }
      i := i + 1;
    }
    assert specs[..i] == specs;
    query := Join(parts, " ");
  }
}
