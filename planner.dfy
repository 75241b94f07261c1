/** The planner agent (agents/planner.py): turning the language model's
    answer into a decision, and merging newly extracted requirements into the
    ones already collected.  The language model is an oracle: its answer is
    given as an already parsed value, or as a failure. */
module Planner {
  import opened Wrappers
  import opened Strings
  import opened Dicts
  import opened Requirements

  /** `PlannerDecision` */
  datatype PlannerDecision = PlannerDecision(
    status: string,
    missingFields: seq<string>,
    requirements: Option<UserRequirements>,
    confidence: real,
    reasoning: string,
    suggestedQuestions: seq<string>)

  /** The `budget` entry of the model's answer, as `_parse_decision` tells
      its cases apart: absent or falsy (null, `{}`, 0, ""), truthy but not a
      dictionary, or a dictionary whose `max` is `None` when it is absent,
      null or zero. */
  datatype RawBudget =
    | BudgetFalsy
    | BudgetNotDict
    | BudgetDict(min: Option<real>, max: Option<real>, flexible: bool)

  /** The `extracted_requirements` dictionary; a missing key is its default. */
  datatype RawRequirements = RawRequirements(
    productCategory: string,
    budget: RawBudget,
    useCase: string,
    mustHaveSpecs: Specs,
    niceToHaveSpecs: Specs,
    dealBreakers: seq<string>,
    preferredBrands: seq<string>,
    excludedBrands: seq<string>)

  /** The parsed answer: not a JSON object, an object some field of which
      pydantic cannot accept, or an object whose missing keys are `None`
      (or the empty defaults for lists and the requirement dictionary). */
  datatype RawDecision =
    | NotAnObject
    | IllTyped
    | Answer(
        extracted: RawRequirements,
        status: Option<string>,
        missingFields: seq<string>,
        completenessScore: Option<real>,
        reasoning: string,
        suggestedQuestions: seq<string>)

  /** The decision `_parse_decision` returns when anything goes wrong. */
  const FallbackDecision := PlannerDecision(
    "need_more_info", ["unknown"], None, 0.0, "Failed to parse requirements",
    ["Could you provide more details about what you're looking for?"])

  /** The budget `_parse_decision` builds: none unless the entry is a
      dictionary with a truthy `max`; a budget the validators reject is an
      error. */
  function ParseBudget(b: RawBudget): (r: Result<Option<Budget>, seq<BudgetError>>)
    ensures r.Ok? && r.value.Some? <==> b.BudgetDict? && b.max.Some? && b.max.value > 0.0 && (b.min.None? || b.min.value >= 0.0)
    ensures r.Ok? && r.value.Some? ==> r.value.value.Valid() && r.value.value.max == b.max.value && r.value.value.flexibilityPercent.None?
    ensures r.Err? <==> b.BudgetDict? && b.max.Some? && b.max.value != 0.0 && (b.max.value < 0.0 || (b.min.Some? && b.min.value < 0.0))
  {
    match b
    case BudgetDict(min, max, flexible) =>
      if max.None? || max.value == 0.0 then Ok(None)
      else
        (match MakeBudget(min, max.value, flexible, None)
         case Ok(budget) => Ok(Some(budget))
         case Err(e) => Err(e))
    case _ => Ok(None)
  }

  /** `_parse_decision` */
  function ParseDecision(result: RawDecision, rawInput: string): (d: PlannerDecision)
    ensures d.requirements.None? <==> d == FallbackDecision
    ensures d.requirements.Some? ==> d.requirements.value.Valid() && d.requirements.value.rawInput == rawInput
    ensures d.requirements.Some? ==> d.requirements.value.preferredRetailers == [] && d.requirements.value.priorities == []
  {
    match result
    case NotAnObject => FallbackDecision
    case IllTyped => FallbackDecision
    case Answer(req, status, missing, score, reasoning, questions) =>
      match ParseBudget(req.budget)
      case Err(_) => FallbackDecision
      case Ok(budget) =>
        var requirements := UserRequirements(
          req.productCategory, budget, req.useCase, req.mustHaveSpecs, req.niceToHaveSpecs,
          req.dealBreakers, req.preferredBrands, req.excludedBrands, [], [],
          score.GetOr(0.0), rawInput);
        PlannerDecision(status.GetOr("need_more_info"), missing, Some(requirements),
                        score.GetOr(0.0), reasoning, questions)
  }

  /** A well-formed answer yields requirements carrying what it extracted,
      with the documented defaults for status and score. */
  lemma ParseDecisionAnswer(result: RawDecision, rawInput: string)
    requires result.Answer? && ParseBudget(result.extracted.budget).Ok?
    ensures var d := ParseDecision(result, rawInput);
      && d.requirements.Some?
      && d.status == (if result.status.Some? then result.status.value else "need_more_info")
      && d.confidence == d.requirements.value.completenessScore == (if result.completenessScore.Some? then result.completenessScore.value else 0.0)
      && d.requirements.value.productCategory == result.extracted.productCategory
      && (d.requirements.value.budget.Some? <==> result.extracted.budget.BudgetDict? && result.extracted.budget.max.Some? && result.extracted.budget.max.value != 0.0)
  {
  }

  /** Every way of failing gives the minimal decision: not an object, an
      unacceptable field, or a budget the validators reject. */
  lemma ParseDecisionFailure(result: RawDecision, rawInput: string)
    requires result.NotAnObject? || result.IllTyped? || (result.Answer? && ParseBudget(result.extracted.budget).Err?)
    ensures var d := ParseDecision(result, rawInput);
      d.status == "need_more_info" && d.confidence == 0.0 && d.requirements.None? && d.missingFields == ["unknown"]
  {
  }

  /** `analyze`: the language model call either fails, which is re-raised as
      an error, or yields an answer that is parsed. */
  function Analyze(answer: Option<RawDecision>, userInput: string): (r: Result<PlannerDecision, string>)
    ensures r.Err? <==> answer.None?
    ensures r.Ok? ==> r.value == ParseDecision(answer.value, userInput)
  {
    match answer
    case None => Err("Failed to analyze requirements")
    case Some(a) => Ok(ParseDecision(a, userInput))
  }

  /** The elements of `s` in order of first occurrence, each once. */
  function Distinct<T(==,!new)>(s: seq<T>): (r: seq<T>)
    ensures forall x :: x in r <==> x in s
    ensures NoDuplicates(r)
    ensures |r| <= |s|
  {
    if s == [] then []
    else
      var init := Distinct(s[..|s| - 1]);
      var last := s[|s| - 1];
      assert s == s[..|s| - 1] + [last];
      assert forall x :: x in s <==> x in s[..|s| - 1] || x == last;
      if last in init then init else init + [last]
  }

  predicate NoDuplicates<T(==)>(s: seq<T>) {
    forall i, j :: 0 <= i < j < |s| ==> s[i] != s[j]
  }

  /** `list(set(a + b))`.  Python leaves the order to the hash function;
      this model keeps the order of first occurrence, and nothing below
      depends on the order. */
  function Union<T(==,!new)>(a: seq<T>, b: seq<T>): (r: seq<T>)
    ensures forall x :: x in r <==> x in a || x in b
    ensures NoDuplicates(r)
  {
    Distinct(a + b)
  }

  function MaxReal(x: real, y: real): real {
    if x >= y then x else y
  }

  /** `_merge_requirements`.  The merged record is built from scratch, so
      `preferred_retailers` falls back to its empty default. */
  function Merge(existing: UserRequirements, incoming: UserRequirements): (m: UserRequirements)
  {
    UserRequirements(
      if incoming.productCategory != "" then incoming.productCategory else existing.productCategory,
      if incoming.budget.Some? then incoming.budget else existing.budget,
      if incoming.useCase != "" then incoming.useCase else existing.useCase,
      Update(existing.mustHaveSpecs, incoming.mustHaveSpecs),
      Update(existing.niceToHaveSpecs, incoming.niceToHaveSpecs),
      Union(existing.dealBreakers, incoming.dealBreakers),
      Union(existing.preferredBrands, incoming.preferredBrands),
      Union(existing.excludedBrands, incoming.excludedBrands),
      [],
      if incoming.priorities != [] then incoming.priorities else existing.priorities,
      MaxReal(existing.completenessScore, incoming.completenessScore),
      Strip(existing.rawInput + "\n" + incoming.rawInput))
  }

  /** Scalars: the new value wins when it is present, and a known value is
      never erased by an absent one. */
  lemma MergeScalars(existing: UserRequirements, incoming: UserRequirements)
    ensures var m := Merge(existing, incoming);
      && (incoming.productCategory != "" ==> m.productCategory == incoming.productCategory)
      && (incoming.productCategory == "" ==> m.productCategory == existing.productCategory)
      && (incoming.budget.Some? ==> m.budget == incoming.budget)
      && (incoming.budget.None? ==> m.budget == existing.budget)
      && (incoming.useCase != "" ==> m.useCase == incoming.useCase)
      && (incoming.useCase == "" ==> m.useCase == existing.useCase)
      && (incoming.priorities != [] ==> m.priorities == incoming.priorities)
      && (incoming.priorities == [] ==> m.priorities == existing.priorities)
  {
  }

  /** Merging never forgets a value either side knew, and never lowers the
      score. */
  lemma MergeNeverForgets(existing: UserRequirements, incoming: UserRequirements)
    ensures var m := Merge(existing, incoming);
      && (existing.productCategory != "" || incoming.productCategory != "" ==> m.productCategory != "")
      && (existing.budget.Some? || incoming.budget.Some? ==> m.budget.Some?)
      && (existing.useCase != "" || incoming.useCase != "" ==> m.useCase != "")
      && KeySet(m.mustHaveSpecs) == KeySet(existing.mustHaveSpecs) + KeySet(incoming.mustHaveSpecs)
      && KeySet(m.niceToHaveSpecs) == KeySet(existing.niceToHaveSpecs) + KeySet(incoming.niceToHaveSpecs)
      && m.completenessScore >= existing.completenessScore
      && m.completenessScore >= incoming.completenessScore
      && (m.completenessScore == existing.completenessScore || m.completenessScore == incoming.completenessScore)
  {
  }

  /** Specification dictionaries: every key of both sides, the new value
      winning on a collision. */
  lemma MergeSpecs(existing: UserRequirements, incoming: UserRequirements, key: string)
    requires UniqueKeys(incoming.mustHaveSpecs) && UniqueKeys(incoming.niceToHaveSpecs)
    ensures var m := Merge(existing, incoming);
      && Get(m.mustHaveSpecs, key) == (if key in KeySet(incoming.mustHaveSpecs) then Get(incoming.mustHaveSpecs, key) else Get(existing.mustHaveSpecs, key))
      && Get(m.niceToHaveSpecs, key) == (if key in KeySet(incoming.niceToHaveSpecs) then Get(incoming.niceToHaveSpecs, key) else Get(existing.niceToHaveSpecs, key))
  {
    UpdateGet(existing.mustHaveSpecs, incoming.mustHaveSpecs, key);
    UpdateGet(existing.niceToHaveSpecs, incoming.niceToHaveSpecs, key);
  }

  /** List fields: exactly the set union of both sides, without duplicates. */
  lemma MergeLists(existing: UserRequirements, incoming: UserRequirements, x: string)
    ensures var m := Merge(existing, incoming);
      && (x in m.dealBreakers <==> x in existing.dealBreakers || x in incoming.dealBreakers)
      && (x in m.preferredBrands <==> x in existing.preferredBrands || x in incoming.preferredBrands)
      && (x in m.excludedBrands <==> x in existing.excludedBrands || x in incoming.excludedBrands)
      && NoDuplicates(m.dealBreakers) && NoDuplicates(m.preferredBrands) && NoDuplicates(m.excludedBrands)
  {
  }

  /** `raw_input` is the two inputs on separate lines, with the outer
      whitespace stripped. */
  lemma MergeRawInput(existing: UserRequirements, incoming: UserRequirements)
    ensures var raw := Merge(existing, incoming).rawInput;
      && (raw == "" || (!IsSpace(raw[0]) && !IsSpace(raw[|raw| - 1])))
      && raw == Strip(existing.rawInput + "\n" + incoming.rawInput)
  {
  }

  /** Merging keeps records valid and specification keys unique. */
  lemma MergeValid(existing: UserRequirements, incoming: UserRequirements)
    requires existing.Valid() && incoming.Valid()
    requires UniqueKeys(existing.mustHaveSpecs) && UniqueKeys(existing.niceToHaveSpecs)
    ensures Merge(existing, incoming).Valid()
    ensures UniqueKeys(Merge(existing, incoming).mustHaveSpecs) && UniqueKeys(Merge(existing, incoming).niceToHaveSpecs)
  {
    UpdateUnique(existing.mustHaveSpecs, incoming.mustHaveSpecs);
    UpdateUnique(existing.niceToHaveSpecs, incoming.niceToHaveSpecs);
  }

  /** A complete record stays complete when merged with anything whose
      category is either absent or longer than two characters. */
  lemma MergeKeepsComplete(existing: UserRequirements, incoming: UserRequirements)
    requires IsComplete(existing) && incoming.Valid()
    requires incoming.productCategory == "" || |incoming.productCategory| > 2
    ensures IsComplete(Merge(existing, incoming))
  {
    var m := Merge(existing, incoming);
    assert m.mustHaveSpecs != [] || m.useCase != "" by {
      if existing.mustHaveSpecs != [] {
        UpdateKeepsOrder(existing.mustHaveSpecs, incoming.mustHaveSpecs);
      }
    }
  }

  /** The exception is real: a short new category such as "tv" replaces a
      good one and the merged record is no longer complete. */
  lemma MergeShortCategoryLosesCompleteness()
    ensures var existing := UserRequirements("laptop", Some(Budget(None, 1000.0, false, None)), "gaming",
                                             [], [], [], [], [], [], [], 0.9, "");
            var incoming := EmptyRequirements("").(productCategory := "tv");
            IsComplete(existing) && !IsComplete(Merge(existing, incoming))
  {
  }

  /** `update_requirements`: a failed analysis propagates; a decision
      without requirements leaves `current` as it is; otherwise the
      extracted requirements are merged in. */
  function UpdateRequirements(current: UserRequirements, newInfo: string, answer: Option<RawDecision>): (r: Result<UserRequirements, string>)
    ensures r.Err? <==> answer.None?
    ensures r.Ok? && ParseDecision(answer.value, newInfo).requirements.None? ==> r.value == current
    ensures r.Ok? && ParseDecision(answer.value, newInfo).requirements.Some? ==>
      r.value == Merge(current, ParseDecision(answer.value, newInfo).requirements.value)
  {
    match Analyze(answer, newInfo)
    case Err(e) => Err(e)
    case Ok(decision) =>
      if decision.requirements.Some? then Ok(Merge(current, decision.requirements.value)) else Ok(current)
  }

  /** Updating never forgets: every category, budget, use case and
      specification key already known is still there afterwards. */
  lemma UpdateNeverForgets(current: UserRequirements, newInfo: string, answer: Option<RawDecision>)
    requires UpdateRequirements(current, newInfo, answer).Ok?
    ensures var u := UpdateRequirements(current, newInfo, answer).value;
      && (current.productCategory != "" ==> u.productCategory != "")
      && (current.budget.Some? ==> u.budget.Some?)
      && (current.useCase != "" ==> u.useCase != "")
      && KeySet(current.mustHaveSpecs) <= KeySet(u.mustHaveSpecs)
      && u.completenessScore >= current.completenessScore
  {
    var d := ParseDecision(answer.value, newInfo);
    if d.requirements.Some? {
      MergeNeverForgets(current, d.requirements.value);
    }
  }
}
