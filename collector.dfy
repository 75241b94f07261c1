/** The collector (agents/collector.py): it picks the next question to ask,
    avoiding questions similar to ones already asked, builds the context
    text the question is generated from, and records every question it
    asks.  The language model's reply (or its failure) and the user's
    answer are parameters. */
module Collector {
  import opened Wrappers
  import opened Strings
  import opened Dicts
  import opened Requirements

  // ---------------------------------------------------------------------
  // Similar questions

  /** The phrases that mark what a question asks about. */
  const KeyPhrases: seq<string> := [
    "what type", "which type", "what kind",
    "budget", "price", "cost",
    "use case", "how will you use", "what will you use"]

  /** Some phrase of the list occurs in both texts. */
  function SharesPhrase(a: string, b: string, phrases: seq<string>): (r: bool)
    ensures r <==> exists i :: 0 <= i < |phrases| && Contains(a, phrases[i]) && Contains(b, phrases[i])
  {
    if phrases == [] then false
    else if Contains(a, phrases[0]) && Contains(b, phrases[0]) then true
    else
      var rest := SharesPhrase(a, b, phrases[1..]);
      assert forall i :: 1 <= i < |phrases| ==> phrases[i] == phrases[1..][i - 1];
      rest
  }

  /** `_is_similar_question`: the two questions, lower-cased, share a key
      phrase. */
  function IsSimilarQuestion(q1: string, q2: string): bool {
    SharesPhrase(Lower(q1), Lower(q2), KeyPhrases)
  }

  /** Two questions are similar exactly when some key phrase occurs in
      both, lower-cased. */
  lemma SimilarMeansSharedPhrase(q1: string, q2: string)
    ensures IsSimilarQuestion(q1, q2) <==>
      exists i :: 0 <= i < |KeyPhrases| && Contains(Lower(q1), KeyPhrases[i]) && Contains(Lower(q2), KeyPhrases[i])
  {
  }

  /** The question mentions one of the key phrases, in any case. */
  predicate MentionsKeyPhrase(q: string) {
    exists i :: 0 <= i < |KeyPhrases| && Contains(Lower(q), KeyPhrases[i])
  }

  /** Similarity does not depend on the order of the two questions. */
  lemma SimilarSymmetric(q1: string, q2: string)
    ensures IsSimilarQuestion(q1, q2) == IsSimilarQuestion(q2, q1)
  {
    SimilarMeansSharedPhrase(q1, q2);
    SimilarMeansSharedPhrase(q2, q1);
  }

  /** A question is similar to itself exactly when it mentions a key
      phrase; a question mentioning none is similar to no question. */
  lemma SimilarToItself(q: string, other: string)
    ensures IsSimilarQuestion(q, q) <==> MentionsKeyPhrase(q)
    ensures !MentionsKeyPhrase(q) ==> !IsSimilarQuestion(q, other)
  {
    SimilarMeansSharedPhrase(q, q);
    SimilarMeansSharedPhrase(q, other);
  }

  /** Similarity ignores case. */
  lemma SimilarIgnoresCase(q1: string, q2: string)
    ensures IsSimilarQuestion(Lower(q1), q2) == IsSimilarQuestion(q1, q2)
  {
    LowerOfLower(Lower(q1));
    SimilarMeansSharedPhrase(Lower(q1), q2);
    SimilarMeansSharedPhrase(q1, q2);
  }

  // ---------------------------------------------------------------------
  // Choosing the question

  /** Some question already asked is similar to `q`. */
  predicate AskedBefore(q: string, asked: seq<string>) {
    exists j :: 0 <= j < |asked| && IsSimilarQuestion(q, asked[j])
  }

  /** The position of the first suggestion at or after `from` that is not
      similar to any question asked. */
  function FreshFrom(suggested: seq<string>, asked: seq<string>, from: nat): (r: Option<nat>)
    ensures r.Some? ==> from <= r.value < |suggested| && !AskedBefore(suggested[r.value], asked)
    ensures r.Some? ==> forall k :: from <= k < r.value ==> AskedBefore(suggested[k], asked)
    ensures r.None? ==> forall k :: from <= k < |suggested| ==> AskedBefore(suggested[k], asked)
    decreases |suggested| - from
  {
    if from >= |suggested| then None
    else if !AskedBefore(suggested[from], asked) then Some(from)
    else FreshFrom(suggested, asked, from + 1)
  }

  /** The first suggestion not similar to any question asked. */
  function FreshSuggestion(suggested: seq<string>, asked: seq<string>): (r: Option<nat>)
    ensures r.Some? ==> r.value < |suggested| && !AskedBefore(suggested[r.value], asked)
    ensures r.Some? ==> forall k :: 0 <= k < r.value ==> AskedBefore(suggested[k], asked)
    ensures r.None? ==> forall k :: 0 <= k < |suggested| ==> AskedBefore(suggested[k], asked)
  {
    FreshFrom(suggested, asked, 0)
  }

  /** A suggestion that mentions a key phrase is never chosen again once it
      has been asked. */
  lemma AskedNotRepeated(suggested: seq<string>, asked: seq<string>, i: nat)
    requires i < |suggested| && suggested[i] in asked && MentionsKeyPhrase(suggested[i])
    ensures FreshSuggestion(suggested, asked) != Some(i)
  {
    var j :| 0 <= j < |asked| && asked[j] == suggested[i];
    SimilarToItself(suggested[i], suggested[i]);
    assert IsSimilarQuestion(suggested[i], asked[j]);
  }

  const BudgetQuestion: string := "What's your budget for this purchase?"
  const UseQuestion: string := "How do you plan to use this product?"
  const SpecsQuestion: string := "Are there any specific features or specs you need?"
  const GeneralQuestion: string := "Could you tell me more about what you're looking for?"

  /** The fixed question asked when generation fails: about the first of
      budget, use case and specifications that is still missing. */
  function FallbackQuestion(requirements: Option<UserRequirements>): (q: string)
    ensures requirements.Some? && requirements.value.budget.None? ==> q == BudgetQuestion
    ensures q == UseQuestion <==> requirements.Some? && requirements.value.budget.Some? && requirements.value.useCase == []
    ensures q == SpecsQuestion <==>
      requirements.Some? && requirements.value.budget.Some? && requirements.value.useCase != [] && requirements.value.mustHaveSpecs == []
    ensures q == GeneralQuestion <==>
      requirements.None? || (requirements.value.budget.Some? && requirements.value.useCase != [] && requirements.value.mustHaveSpecs != [])
  {
    match requirements
    case None => GeneralQuestion
    case Some(r) =>
      if r.budget.None? then BudgetQuestion
      else if r.useCase == [] then UseQuestion
      else if r.mustHaveSpecs == [] then SpecsQuestion
      else GeneralQuestion
  }

  /** `_generate_question`: the first fresh suggestion; failing that the
      generated question, stripped (`reply`, `None` when the call raised);
      failing that the fallback question. */
  function ChosenQuestion(suggested: Option<seq<string>>, asked: seq<string>, reply: Option<string>,
                          requirements: Option<UserRequirements>): (q: string)
    ensures FreshSuggestion(suggested.GetOr([]), asked).Some? ==>
      q == suggested.value[FreshSuggestion(suggested.GetOr([]), asked).value] && !AskedBefore(q, asked)
    ensures FreshSuggestion(suggested.GetOr([]), asked).None? && reply.Some? ==> q == Strip(reply.value)
    ensures FreshSuggestion(suggested.GetOr([]), asked).None? && reply.None? ==> q == FallbackQuestion(requirements)
  {
    match FreshSuggestion(suggested.GetOr([]), asked)
    case Some(i) => suggested.value[i]
    case None =>
      match reply
      case Some(text) => Strip(text)
      case None => FallbackQuestion(requirements)
  }

  /** With no question asked yet, the first suggestion is asked. */
  lemma FirstSuggestionFirst(suggested: seq<string>, reply: Option<string>, requirements: Option<UserRequirements>)
    requires suggested != []
    ensures ChosenQuestion(Some(suggested), [], reply, requirements) == suggested[0]
  {
  }

  // ---------------------------------------------------------------------
  // The context

  /** `field.replace('_', ' ').title()` */
  function FieldLabel(field: string): (name: string)
    ensures |name| == |field|
  {
    ReplaceCharAt(field, '_', ' ');
    TitleCase(Replace(field, "_", " "))
  }

  /** A snake-case field name becomes its words with capitals, in place:
      each underscore turns into a space and the letter after it is
      upper-cased. */
  lemma FieldLabelShape(field: string, i: nat)
    requires i < |field|
    ensures field[i] == '_' ==> FieldLabel(field)[i] == ' '
    ensures IsLower(field[i]) && (i == 0 || field[i - 1] == '_') ==> FieldLabel(field)[i] == UpperChar(field[i])
  {
    ReplaceCharAt(field, '_', ' ');
  }

  /** `f'{k}: {v}'` */
  function SpecItem(entry: (string, SpecValue)): string {
    entry.0 + ": " + entry.1.Render()
  }

  function SpecItems(specs: Specs): (items: seq<string>)
    ensures |items| == |specs|
    ensures forall i :: 0 <= i < |specs| ==> items[i] == SpecItem(specs[i])
  {
    seq(|specs|, i requires 0 <= i < |specs| => SpecItem(specs[i]))
  }

  /** The lines `- text` of a list. */
  function Bullets(texts: seq<string>): (lines: seq<string>)
    ensures |lines| == |texts|
    ensures forall i :: 0 <= i < |texts| ==> lines[i] == "- " + texts[i]
  {
    seq(|texts|, i requires 0 <= i < |texts| => "- " + texts[i])
  }

  /** A line `- Field Name` per missing field. */
  function FieldLines(fields: seq<string>): (lines: seq<string>)
    ensures |lines| == |fields|
    ensures forall i :: 0 <= i < |fields| ==> lines[i] == "- " + FieldLabel(fields[i])
  {
    seq(|fields|, i requires 0 <= i < |fields| => "- " + FieldLabel(fields[i]))
  }

  const KnownHeader: string := "WHAT WE KNOW:"

  /** 1 for a field that gets a line, 0 otherwise. */
  function Count(shown: bool): nat {
    if shown then 1 else 0
  }

  /** What is known: the category, the budget's maximum (`showWhole` stands
      for the `:.0f` formatting), the use case and the first three
      specifications, each only when set. */
  function KnownLines(r: UserRequirements, showWhole: real -> string): (lines: seq<string>)
    ensures |lines| <= 5
    ensures var product, budget, useCase := Count(r.productCategory != []), Count(r.budget.Some?), Count(r.useCase != []);
      && |lines| == 1 + product + budget + useCase + Count(r.mustHaveSpecs != [])
      && lines[0] == KnownHeader
      && (r.productCategory != [] ==> lines[1] == "- Product: " + r.productCategory)
      && (r.budget.Some? ==> lines[1 + product] == "- Budget: $" + showWhole(r.budget.value.max))
      && (r.useCase != [] ==> lines[1 + product + budget] == "- Use case: " + r.useCase)
      && (r.mustHaveSpecs != [] ==>
            lines[1 + product + budget + useCase] == "- Specs: " + Join(SpecItems(Prefix(r.mustHaveSpecs, 3)), ", "))
  {
    [KnownHeader]
    + (if r.productCategory != [] then ["- Product: " + r.productCategory] else [])
    + (match r.budget case Some(b) => ["- Budget: $" + showWhole(b.max)] case None => [])
    + (if r.useCase != [] then ["- Use case: " + r.useCase] else [])
    + (if r.mustHaveSpecs != [] then ["- Specs: " + Join(SpecItems(Prefix(r.mustHaveSpecs, 3)), ", ")] else [])
  }

  const NeedHeader: string := "\nWHAT WE NEED:"
  const SuggestedHeader: string := "\nSUGGESTED QUESTIONS:"

  /** The lines `_build_context` joins. */
  function ContextLines(r: UserRequirements, missing: seq<string>, suggested: Option<seq<string>>,
                        showWhole: real -> string): (lines: seq<string>)
  {
    KnownLines(r, showWhole)
    + [NeedHeader] + FieldLines(missing)
    + (if suggested.GetOr([]) == [] then [] else [SuggestedHeader] + Bullets(Prefix(suggested.value, 3)))
  }

  /** Every missing field gets a line, after the header, in order; the
      suggestions are cut to the first three and follow the fields. */
  lemma ContextShape(r: UserRequirements, missing: seq<string>, suggested: Option<seq<string>>, showWhole: real -> string)
    ensures var lines := ContextLines(r, missing, suggested, showWhole);
      var k := |KnownLines(r, showWhole)|;
      var s := suggested.GetOr([]);
      && |lines| == k + 1 + |missing| + (if s == [] then 0 else 1 + (if |s| < 3 then |s| else 3))
      && lines[k] == NeedHeader
      && (forall i :: 0 <= i < |missing| ==> lines[k + 1 + i] == "- " + FieldLabel(missing[i]))
      && (s != [] ==> lines[k + 1 + |missing|] == SuggestedHeader)
      && (forall i :: 0 <= i < |s| && i < 3 ==> lines[k + 2 + |missing| + i] == "- " + s[i])
  {
  }

  /** The specification line names at most three specifications. */
  lemma KnownSpecsCapped(r: UserRequirements)
    ensures |SpecItems(Prefix(r.mustHaveSpecs, 3))| <= 3
  {
  }

  /** `_build_context`. */
  method BuildContext(r: UserRequirements, missing: seq<string>, suggested: Option<seq<string>>, showWhole: real -> string)
    returns (context: string)
    ensures context == Join(ContextLines(r, missing, suggested, showWhole), "\n")
  {
    var parts := KnownLines(r, showWhole) + [NeedHeader];
    ghost var base := parts;
    for i := 0 to |missing|
      invariant parts == base + FieldLines(missing[..i])
    {
      assert FieldLines(missing[..i + 1]) == FieldLines(missing[..i]) + ["- " + FieldLabel(missing[i])];
      parts := parts + ["- " + FieldLabel(missing[i])];
    }
    assert missing[..|missing|] == missing;
    assert parts == KnownLines(r, showWhole) + [NeedHeader] + FieldLines(missing);
    if suggested.Some? && suggested.value != [] {
      var firstThree := Prefix(suggested.value, 3);
      parts := parts + [SuggestedHeader];
      ghost var withHeader := parts;
      for i := 0 to |firstThree|
        invariant parts == withHeader + Bullets(firstThree[..i])
      {
        assert Bullets(firstThree[..i + 1]) == Bullets(firstThree[..i]) + ["- " + firstThree[i]];
        parts := parts + ["- " + firstThree[i]];
      }
      assert firstThree[..|firstThree|] == firstThree;
      assert parts == KnownLines(r, showWhole) + [NeedHeader] + FieldLines(missing) + ([SuggestedHeader] + Bullets(firstThree));
    }
    assert parts == ContextLines(r, missing, suggested, showWhole);
    context := Join(parts, "\n");
  }

  // ---------------------------------------------------------------------
  // The agent

  /** The loop over the suggestions in `_generate_question`. */
  method FirstFresh(suggested: seq<string>, asked: seq<string>) returns (r: Option<nat>)
    ensures r == FreshSuggestion(suggested, asked)
  {
    for i := 0 to |suggested|
      invariant FreshFrom(suggested, asked, i) == FreshSuggestion(suggested, asked)
    {
      var similar := AnySimilar(suggested[i], asked);
      if !similar {
        return Some(i);
      }
    }
    return None;
  }

  /** `any(self._is_similar_question(q, asked) for asked in ...)` */
  method AnySimilar(q: string, asked: seq<string>) returns (similar: bool)
    ensures similar == AskedBefore(q, asked)
  {
    similar := AnyOf(asked, (a: string) => IsSimilarQuestion(q, a));
  }

  class CollectorAgent {
    /** Every question asked so far, oldest first. */
    var askedQuestions: seq<string>

    constructor()
      ensures askedQuestions == []
    {
      askedQuestions := [];
    }

    /** `_generate_question`. */
    method GenerateQuestion(suggested: Option<seq<string>>, reply: Option<string>, requirements: Option<UserRequirements>)
      returns (question: string)
      ensures question == ChosenQuestion(suggested, askedQuestions, reply, requirements)
    {
      if suggested.Some? && suggested.value != [] {
        var first := FirstFresh(suggested.value, askedQuestions);
        if first.Some? {
          return suggested.value[first.value];
        }
      }
      match reply {
        case Some(text) =>
          question := Strip(text);
        case None =>
          question := FallbackQuestion(requirements);
      }
    }

    /** `gather`: the question chosen is recorded and the user's `answer`
        is returned. */
    method Gather(requirements: UserRequirements, missing: seq<string>, suggested: Option<seq<string>>,
                  showWhole: real -> string, reply: Option<string>, answer: string)
      returns (response: string)
      modifies this
      ensures askedQuestions == old(askedQuestions) + [ChosenQuestion(suggested, old(askedQuestions), reply, Some(requirements))]
      ensures response == answer
    {
      var context := BuildContext(requirements, missing, suggested, showWhole);
      var question := GenerateQuestion(suggested, reply, Some(requirements));
      askedQuestions := askedQuestions + [question];
      response := answer;
    }
  }

  /** Two gathers with the same suggestions never ask the same key-phrase
      suggestion twice: once asked, it is similar to a recorded question. */
  lemma GatherNotRepeated(suggested: seq<string>, asked: seq<string>, reply: Option<string>,
                          requirements: Option<UserRequirements>)
    requires FreshSuggestion(suggested, asked).Some?
    requires MentionsKeyPhrase(suggested[FreshSuggestion(suggested, asked).value])
    ensures var q := ChosenQuestion(Some(suggested), asked, reply, requirements);
      FreshSuggestion(suggested, asked + [q]) != FreshSuggestion(suggested, asked)
  {
    var i := FreshSuggestion(suggested, asked).value;
    var q := ChosenQuestion(Some(suggested), asked, reply, requirements);
    assert q == suggested[i];
    assert (asked + [q])[|asked|] == q;
    AskedNotRepeated(suggested, asked + [q], i);
  }
}
