/** The workflow orchestrator (orchestrator.py): the choice of the search
    provider, the bounded loop that gathers requirements, and the run that
    chains gathering, research and analysis.  The planner's and the
    collector's language-model answers, the user's replies, the search and
    the rendering of the requirements are oracles given as parameters. */
module Orchestrator {
  import opened Wrappers
  import opened Strings
  import opened Requirements
  import opened Products
  import opened Planner
  import Collector
  import Analyzer
  import Config

  // ---------------------------------------------------------------------
  // The search provider

  datatype Provider = Perplexity | SerpApi

  /** The researcher `__init__` constructs for `SEARCH_PROVIDER`; any other
      name raises. */
  function ChooseResearcher(searchProvider: string): (r: Result<Provider, string>)
    ensures r.Ok? <==> searchProvider in Config.SearchProviders
    ensures r == Ok(Perplexity) <==> searchProvider == "perplexity"
    ensures r == Ok(SerpApi) <==> searchProvider == "serpapi"
  {
    if searchProvider == "perplexity" then Ok(Perplexity)
    else if searchProvider == "serpapi" then Ok(SerpApi)
    else Err("Invalid SEARCH_PROVIDER: " + searchProvider + ". Must be 'serpapi' or 'perplexity'")
  }

  /** A configuration that validates always names a provider the
      orchestrator can construct. */
  lemma ValidConfigurationHasResearcher(c: Config.Settings)
    requires Config.Errors(c) == []
    ensures ChooseResearcher(c.searchProvider).Ok?
  {
    Config.ValidIff(c);
  }

  // ---------------------------------------------------------------------
  // Gathering requirements

  const MaxIterations: nat := 5
  const QuitWords: seq<string> := ["quit", "exit", "cancel"]
  const NeedMoreInfo: string := "need_more_info"
  /** The completeness score from which a second or later round ends the
      loop although the planner still asks for more. */
  const ForceThreshold: real := 0.7

  /** What one round of the loop is given: the language model's reply when
      the collector asks it for a question (`None` when that call fails),
      the user's answer, and the language model's answers to the update
      and to the re-analysis (`None` when the call fails). */
  datatype Round = Round(question: Option<string>, answer: string, update: Option<RawDecision>, analysis: Option<RawDecision>)

  /** The loop variables: the number of rounds played, the last decision,
      the requirements and the user's messages so far. */
  datatype Loop = Loop(iteration: nat, decision: PlannerDecision, requirements: UserRequirements, history: seq<string>)

  /** How gathering ends: with complete requirements, with requirements
      still incomplete, cancelled by the user, or with an exception. */
  datatype Gathering =
    | Gathered(requirements: UserRequirements)
    | Incomplete(incomplete: UserRequirements)
    | Cancelled
    | Raised(message: string)

  /** An empty answer or a quit word in any letter case. */
  predicate Quits(answer: string) {
    answer == "" || Lower(answer) in QuitWords
  }

  /** The conversation handed to the re-analysis: each message after
      "User: ", separated by blank lines. */
  function Conversation(history: seq<string>): string {
    Join(seq(|history|, i requires 0 <= i < |history| => "User: " + history[i]), "\n\n")
  }

  /** The loop condition. */
  predicate Continues(s: Loop) {
    s.decision.status == NeedMoreInfo && s.iteration < MaxIterations
  }

  /** The final check: only complete requirements are returned. */
  function Finish(r: UserRequirements): (g: Gathering)
    ensures g.Gathered? <==> IsComplete(r)
    ensures g.Gathered? ==> g.requirements == r
  {
    if IsComplete(r) then Gathered(r) else Incomplete(r)
  }

  /** The outcome of one round: gathering stops, or the loop goes on with
      the new variables, `forced` when the early exit applies. */
  datatype Step = Stop(outcome: Gathering) | Next(state: Loop, forced: bool)

  /** One round of the loop: the user's answer is added to the history,
      the requirements are updated with it, the planner re-analyses the
      whole conversation, and requirements it extracts replace the
      updated ones. */
  function Advance(s: Loop, round: Round): (step: Step)
    ensures step.Next? ==> step.state.iteration == s.iteration + 1
    ensures step.Next? ==> step.state.history == s.history + [round.answer]
    ensures Quits(round.answer) ==> step == Stop(Cancelled)
    ensures step.Next? && step.forced <==>
      && step.Next? && s.iteration >= 1
      && step.state.decision.status == NeedMoreInfo
      && step.state.requirements.completenessScore >= ForceThreshold
  {
    if Quits(round.answer) then Stop(Cancelled)
    else
      var history := s.history + [round.answer];
      match UpdateRequirements(s.requirements, round.answer, round.update)
      case Err(m) => Stop(Raised(m))
      case Ok(updated) =>
        match Analyze(round.analysis, Conversation(history))
        case Err(m) => Stop(Raised(m))
        case Ok(d) =>
          var r := if d.requirements.Some? then d.requirements.value else updated;
          var n := s.iteration + 1;
          Next(Loop(n, d, r, history), n > 1 && d.status == NeedMoreInfo && r.completenessScore >= ForceThreshold)
  }

  /** The rest of the loop from the variables `s`: how gathering ends and
      how many rounds were played in all. */
  function Rest(s: Loop, rounds: nat -> Round): (end: (Gathering, nat))
    decreases MaxIterations - s.iteration
  {
    if !Continues(s) then (Finish(s.requirements), s.iteration)
    else
      match Advance(s, rounds(s.iteration))
      case Stop(g) => (g, s.iteration + 1)
      case Next(t, forced) => if forced then (Finish(t.requirements), t.iteration) else Rest(t, rounds)
  }

  /** The loop variables after the first analysis, or the error it raised. */
  function Start(initialInput: string, initial: Option<RawDecision>): (r: Result<Loop, string>)
    ensures r.Ok? ==> r.value.iteration == 0 && r.value.history == [initialInput]
  {
    match Analyze(initial, initialInput)
    case Err(m) => Err(m)
    case Ok(d) => Ok(Loop(0, d, d.requirements.GetOr(EmptyRequirements(initialInput)), [initialInput]))
  }

  /** `_gather_requirements`: how gathering ends and how many rounds were
      played (each round asks the user one question). */
  function GatherOutcome(initialInput: string, initial: Option<RawDecision>, rounds: nat -> Round): (Gathering, nat) {
    match Start(initialInput, initial)
    case Err(m) => (Raised(m), 0)
    case Ok(s) => Rest(s, rounds)
  }

  lemma {:induction false} RestGatheredComplete(s: Loop, rounds: nat -> Round)
    ensures Rest(s, rounds).0.Gathered? ==> IsComplete(Rest(s, rounds).0.requirements)
    decreases MaxIterations - s.iteration
  {
    if Continues(s) {
      match Advance(s, rounds(s.iteration))
      case Stop(g) =>
      case Next(t, forced) =>
        if !forced {
          RestGatheredComplete(t, rounds);
        }
    }
  }

  /** Gathering returns requirements only when they are complete. */
  lemma GatheredIsComplete(initialInput: string, initial: Option<RawDecision>, rounds: nat -> Round)
    ensures GatherOutcome(initialInput, initial, rounds).0.Gathered? ==>
      IsComplete(GatherOutcome(initialInput, initial, rounds).0.requirements)
  {
    if Start(initialInput, initial).Ok? {
      RestGatheredComplete(Start(initialInput, initial).value, rounds);
    }
  }

  lemma {:induction false} RestRounds(s: Loop, rounds: nat -> Round)
    requires s.iteration <= MaxIterations
    ensures s.iteration <= Rest(s, rounds).1 <= MaxIterations
    decreases MaxIterations - s.iteration
  {
    if Continues(s) {
      match Advance(s, rounds(s.iteration))
      case Stop(g) =>
      case Next(t, forced) =>
        if !forced {
          RestRounds(t, rounds);
        }
    }
  }

  /** The user is asked at most five times. */
  lemma AtMostFiveRounds(initialInput: string, initial: Option<RawDecision>, rounds: nat -> Round)
    ensures GatherOutcome(initialInput, initial, rounds).1 <= MaxIterations
  {
    if Start(initialInput, initial).Ok? {
      RestRounds(Start(initialInput, initial).value, rounds);
    }
  }

  /** An empty answer or a quit word cancels gathering at once. */
  lemma QuitCancels(s: Loop, rounds: nat -> Round)
    requires Continues(s) && Quits(rounds(s.iteration).answer)
    ensures Rest(s, rounds) == (Cancelled, s.iteration + 1)
  {
  }

  /** A planner that stops asking ends the loop: the requirements are
      returned if they are complete. */
  lemma DecisionEndsLoop(s: Loop, rounds: nat -> Round)
    requires s.decision.status != NeedMoreInfo
    ensures Rest(s, rounds) == (Finish(s.requirements), s.iteration)
  {
  }

  /** From the second round on, a planner still asking for more with a
      score of at least 0.7 ends the loop after that round. */
  lemma HighScoreEndsLoop(s: Loop, rounds: nat -> Round)
    requires Continues(s) && s.iteration >= 1
    requires Advance(s, rounds(s.iteration)).Next?
    requires var t := Advance(s, rounds(s.iteration)).state;
      t.decision.status == NeedMoreInfo && t.requirements.completenessScore >= ForceThreshold
    ensures Rest(s, rounds) == (Finish(Advance(s, rounds(s.iteration)).state.requirements), s.iteration + 1)
  {
  }

  // ---------------------------------------------------------------------
  // Reports

  /** `_generate_no_results_report` */
  function NoResultsReport(readable: string): (text: string)
    ensures Contains(text, readable)
  {
    var head := "\n# Product Research Report - No Results\n\n## Your Requirements\n";
    var text := head + readable + NoResultsAdvice;
    assert text[|head|..|head| + |readable|] == readable;
    ContainsAt(text, readable, |head|);
    text
  }

  const NoResultsAdvice: string :=
    "\n\n## Results\n"
    + "Unfortunately, we couldn't find any products matching your specific criteria.\n\n"
    + "## Possible Reasons:\n"
    + "1. **Budget constraints**: Your budget might be too restrictive for this category\n"
    + "2. **Specific requirements**: The combination of requirements might be too specific\n"
    + "3. **Temporary availability**: Products might be out of stock across all retailers\n"
    + "4. **Search limitations**: Our search might need refinement\n\n"
    + "## Suggestions:\n"
    + "1. Try increasing your budget by 10-20%\n"
    + "2. Relax some of the nice-to-have requirements\n"
    + "3. Consider alternative product categories\n"
    + "4. Check back in a few days as inventory updates\n\n"
    + "## Next Steps:\n"
    + "Feel free to run the search again with adjusted requirements.\n"

  /** The number of characters of the category kept in a report's name. */
  const CategoryShown: nat := 30

  /** The file name `_save_report` proposes. */
  function ReportFilename(category: string, timestamp: string): string {
    "report_" + Prefix(Replace(category, " ", "_"), CategoryShown) + "_" + timestamp + ".md"
  }

  /** A report's name starts with "report_", ends with ".md", keeps at most
      30 characters of the category, and has no space unless the timestamp
      has one. */
  lemma ReportFilenameShape(category: string, timestamp: string)
    ensures StartsWith(ReportFilename(category, timestamp), "report_")
    ensures EndsWith(ReportFilename(category, timestamp), ".md")
    ensures |ReportFilename(category, timestamp)| <= 7 + CategoryShown + 1 + |timestamp| + 3
    ensures ' ' !in timestamp ==> ' ' !in ReportFilename(category, timestamp)
  {
    ReplaceCharAt(category, ' ', '_');
    var part := Prefix(Replace(category, " ", "_"), CategoryShown);
    var name := ReportFilename(category, timestamp);
    assert name == "report_" + part + "_" + timestamp + ".md";
    assert name[..7] == "report_";
    assert name[|name| - 3..] == ".md";
    assert ' ' !in part;
  }

  /** How a run ends: the empty report, the no-results report, the
      analyzer's report (with the name it is offered to be saved under when
      reports are saved), or an exception re-raised in debug mode. */
  datatype RunOutcome =
    | NoReport
    | NoResults(text: string)
    | Analysis(report: Analyzer.Report, savedAs: Option<string>)
    | Reraised(message: string)

  /** An exception ends the run with the empty report, unless debugging,
      when it propagates. */
  function Failure(message: string, debug: bool): RunOutcome {
    if debug then Reraised(message) else NoReport
  }

  /** `run` after gathering ended with `g`. */
  function RunResult(g: Gathering, research: UserRequirements -> Result<seq<Product>, string>,
                     readable: UserRequirements -> string, analyze: string -> Option<string>,
                     fmt2: real -> string, fmt1: real -> string, settings: Config.Settings, timestamp: string): RunOutcome
  {
    if g.Raised? then Failure(g.message, settings.debug)
    else if !g.Gathered? || !IsComplete(g.requirements) then NoReport
    else
      var r := g.requirements;
      match research(r)
      case Err(m) => Failure(m, settings.debug)
      case Ok(products) =>
        if products == [] then NoResults(NoResultsReport(readable(r)))
        else Analysis(Analyzer.ReportOf(products, readable(r), analyze, fmt2, fmt1),
                      if settings.saveReports then Some(ReportFilename(r.productCategory, timestamp)) else None)
  }

  /** A run yields a report built from research only for complete
      requirements; otherwise it yields the empty report (or re-raises). */
  lemma RunNeedsCompleteRequirements(initialInput: string, initial: Option<RawDecision>, rounds: nat -> Round,
                                     research: UserRequirements -> Result<seq<Product>, string>,
                                     readable: UserRequirements -> string, analyze: string -> Option<string>,
                                     fmt2: real -> string, fmt1: real -> string, settings: Config.Settings, timestamp: string)
    ensures var g := GatherOutcome(initialInput, initial, rounds).0;
      var o := RunResult(g, research, readable, analyze, fmt2, fmt1, settings, timestamp);
      && (o.NoResults? || o.Analysis? ==> g.Gathered? && IsComplete(g.requirements))
      && (!g.Gathered? && !g.Raised? ==> o == NoReport)
  {
    GatheredIsComplete(initialInput, initial, rounds);
  }

  /** The analyzer's report of a run never is its no-products report: the
      orchestrator answers an empty search itself. */
  lemma RunAnalysisHasProducts(g: Gathering, research: UserRequirements -> Result<seq<Product>, string>,
                               readable: UserRequirements -> string, analyze: string -> Option<string>,
                               fmt2: real -> string, fmt1: real -> string, settings: Config.Settings, timestamp: string)
    ensures RunResult(g, research, readable, analyze, fmt2, fmt1, settings, timestamp).Analysis? ==>
      RunResult(g, research, readable, analyze, fmt2, fmt1, settings, timestamp).report != Analyzer.NoProductsReport
  {
  }

  // ---------------------------------------------------------------------
  // The orchestrator

  class WorkflowOrchestrator {
    const provider: Provider
    const collector: Collector.CollectorAgent

    constructor(provider: Provider)
      ensures this.provider == provider
      ensures fresh(collector) && collector.askedQuestions == []
    {
      this.provider := provider;
      collector := new Collector.CollectorAgent();
    }

    /** `_gather_requirements`: each round asks the collector for the
        user's answer, which records the question it asked. */
    method GatherRequirements(initialInput: string, initial: Option<RawDecision>, rounds: nat -> Round,
                              showWhole: real -> string)
      returns (g: Gathering, played: nat)
      modifies collector
      ensures (g, played) == GatherOutcome(initialInput, initial, rounds)
      ensures |collector.askedQuestions| == |old(collector.askedQuestions)| + played
    {
      var first := Analyze(initial, initialInput);
      if first.Err? {
        return Raised(first.error), 0;
      }
      var decision := first.value;
      var requirements := decision.requirements.GetOr(EmptyRequirements(initialInput));
      var history := [initialInput];
      var iteration := 0;
      ghost var start := Loop(0, decision, requirements, history);
      while decision.status == NeedMoreInfo && iteration < MaxIterations
        invariant iteration <= MaxIterations
        invariant Rest(Loop(iteration, decision, requirements, history), rounds) == Rest(start, rounds)
        invariant |collector.askedQuestions| == |old(collector.askedQuestions)| + iteration
        decreases MaxIterations - iteration
      {
        ghost var s := Loop(iteration, decision, requirements, history);
        var round := rounds(iteration);
        iteration := iteration + 1;
        var response := collector.Gather(requirements, decision.missingFields, Some(decision.suggestedQuestions),
                                         showWhole, round.question, round.answer);
        if response == "" || Lower(response) in QuitWords {
          return Cancelled, iteration;
        }
        history := history + [response];
        var context := Conversation(history);
        var updated := UpdateRequirements(requirements, response, round.update);
        if updated.Err? {
          return Raised(updated.error), iteration;
        }
        requirements := updated.value;
        var analysis := Analyze(round.analysis, context);
        if analysis.Err? {
          return Raised(analysis.error), iteration;
        }
        decision := analysis.value;
        if decision.requirements.Some? {
          requirements := decision.requirements.value;
        }
        assert Advance(s, round) == Next(Loop(iteration, decision, requirements, history),
          iteration > 1 && decision.status == NeedMoreInfo && requirements.completenessScore >= ForceThreshold);
        if iteration > 1 && decision.status == NeedMoreInfo && requirements.completenessScore >= ForceThreshold {
          break;
        }
      }
      if !IsComplete(requirements) {
        return Incomplete(requirements), iteration;
      }
      return Gathered(requirements), iteration;
    }

    /** `run`: gathering, then research by the researcher of the chosen
        provider (`research(p)` is that researcher's `search`), then the
        analyzer's report. */
    method Run(initialInput: string, initial: Option<RawDecision>, rounds: nat -> Round, showWhole: real -> string,
               research: Provider -> UserRequirements -> Result<seq<Product>, string>,
               readable: UserRequirements -> string, analyze: string -> Option<string>,
               fmt2: real -> string, fmt1: real -> string, settings: Config.Settings, timestamp: string)
      returns (outcome: RunOutcome)
      modifies collector
      ensures outcome == RunResult(GatherOutcome(initialInput, initial, rounds).0, research(provider), readable, analyze,
                                   fmt2, fmt1, settings, timestamp)
    {
      var g, _ := GatherRequirements(initialInput, initial, rounds, showWhole);
      if g.Raised? {
        return Failure(g.message, settings.debug);
      }
      if !g.Gathered? || !IsComplete(g.requirements) {
        return NoReport;
      }
      var requirements := g.requirements;
      var found := research(provider)(requirements);
      if found.Err? {
        return Failure(found.error, settings.debug);
      }
      var products := found.value;
      if products == [] {
        return NoResults(NoResultsReport(readable(requirements)));
      }
      var report := Analyzer.AnalyzeAndReport(products, readable(requirements), analyze, fmt2, fmt1);
      var savedAs := None;
      if settings.saveReports {
        savedAs := Some(ReportFilename(requirements.productCategory, timestamp));
      }
      return Analysis(report, savedAs);
    }
  }

  /** `WorkflowOrchestrator()`: the provider is chosen from the setting,
      and any other name is refused. */
  method NewOrchestrator(searchProvider: string) returns (r: Result<WorkflowOrchestrator, string>)
    ensures r.Ok? <==> ChooseResearcher(searchProvider).Ok?
    ensures r.Err? ==> r.error == ChooseResearcher(searchProvider).error
    ensures r.Ok? ==> fresh(r.value) && r.value.provider == ChooseResearcher(searchProvider).value
  {
    match ChooseResearcher(searchProvider)
    case Err(m) =>
      return Err(m);
    case Ok(p) =>
      var o := new WorkflowOrchestrator(p);
      return Ok(o);
  }
}
