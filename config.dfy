/** The configuration (config.py): the settings read from the environment
    and `Config.validate`, which checks the language-model and search
    providers and their keys, collecting every problem before it fails.
    The environment is given as the values of its variables (`None` when a
    variable is unset); reading `.env` files and creating directories are
    not part of this model. */
module Config {
  import opened Wrappers
  import opened Strings

  /** The environment variables the configuration reads. */
  datatype Environment = Environment(
    anthropicKey: Option<string>,
    googleKey: Option<string>,
    llmProvider: Option<string>,
    searchProvider: Option<string>,
    serpApiKey: Option<string>,
    perplexityKey: Option<string>,
    debug: Option<string>,
    cacheEnabled: Option<string>,
    saveReports: Option<string>,
    cacheTtlHours: Option<int>,
    maxProductsPerRetailer: Option<int>)

  /** The settings `validate` and the agents consult. */
  datatype Settings = Settings(
    anthropicKey: Option<string>,
    googleKey: Option<string>,
    llmProvider: string,
    searchProvider: string,
    serpApiKey: Option<string>,
    perplexityKey: Option<string>,
    debug: bool,
    cacheEnabled: bool,
    saveReports: bool,
    cacheTtlHours: int,
    maxProductsPerRetailer: int)

  const DefaultLlmProvider: string := "claude"
  const DefaultSearchProvider: string := "serpapi"
  const DefaultCacheTtlHours: int := 4
  const DefaultMaxProductsPerRetailer: int := 10

  /** `os.getenv(name, default).lower()` */
  function Setting(value: Option<string>, default: string): (s: string)
    ensures value.Some? ==> s == Lower(value.value)
    ensures value.None? ==> s == Lower(default)
  {
    Lower(value.GetOr(default))
  }

  /** `os.getenv(name, default).lower() == 'true'` */
  predicate Flag(value: Option<string>, default: string) {
    Setting(value, default) == "true"
  }

  /** A flag is on exactly for the word "true" in any letter case. */
  lemma FlagIgnoresCase(s: string, t: string, default: string)
    requires Lower(s) == Lower(t)
    ensures Flag(Some(s), default) <==> Flag(Some(t), default)
  {
  }

  /** A flag is on for "True" and "TRUE" as for "true", and off for "yes". */
  lemma FlagSpellings(default: string)
    ensures Flag(Some("True"), default) && Flag(Some("TRUE"), default)
    ensures !Flag(Some("yes"), default)
  {
    assert Lower("True") == "true";
    assert Lower("TRUE") == "true";
    assert Lower("yes") == "yes";
  }

  /** The class attributes of `Config` for an environment. */
  function Load(env: Environment): (c: Settings)
    ensures c.llmProvider == Setting(env.llmProvider, DefaultLlmProvider)
    ensures c.searchProvider == Setting(env.searchProvider, DefaultSearchProvider)
    ensures c.debug <==> Flag(env.debug, "false")
    ensures c.cacheEnabled <==> Flag(env.cacheEnabled, "true")
    ensures c.saveReports <==> Flag(env.saveReports, "true")
    ensures c.cacheTtlHours == env.cacheTtlHours.GetOr(DefaultCacheTtlHours)
    ensures c.maxProductsPerRetailer == env.maxProductsPerRetailer.GetOr(DefaultMaxProductsPerRetailer)
  {
    Settings(
      env.anthropicKey, env.googleKey,
      Setting(env.llmProvider, DefaultLlmProvider),
      Setting(env.searchProvider, DefaultSearchProvider),
      env.serpApiKey, env.perplexityKey,
      Flag(env.debug, "false"), Flag(env.cacheEnabled, "true"), Flag(env.saveReports, "true"),
      env.cacheTtlHours.GetOr(DefaultCacheTtlHours),
      env.maxProductsPerRetailer.GetOr(DefaultMaxProductsPerRetailer))
  }

  /** With nothing set, the providers are Claude and SerpApi, debugging is
      off, caching and saving are on, entries live 4 hours and a retailer
      yields at most 10 products. */
  lemma DefaultSettings()
    ensures var c := Load(Environment(None, None, None, None, None, None, None, None, None, None, None));
      && c.llmProvider == "claude" && c.searchProvider == "serpapi"
      && !c.debug && c.cacheEnabled && c.saveReports
      && c.cacheTtlHours == 4 && c.maxProductsPerRetailer == 10
  {
    LowerOfLower("claude");
    LowerOfLower("serpapi");
    LowerOfLower("false");
    LowerOfLower("true");
  }

  // ---------------------------------------------------------------------
  // Validation

  /** A key is missing when it is unset or empty (`not key`). */
  predicate Present(key: Option<string>) {
    key.Some? && key.value != ""
  }

  const LlmProviders: seq<string> := ["claude", "gemini"]
  const SearchProviders: seq<string> := ["serpapi", "perplexity"]

  /** The problems `validate` reports, in the order it checks for them. */
  datatype ConfigError =
    | MissingAnthropicKey
    | MissingGoogleKey
    | UnknownLlmProvider(llm: string)
    | MissingSerpApiKey
    | MissingPerplexityKey
    | UnknownSearchProvider(search: string)

  /** When each problem is reported. */
  predicate Applies(e: ConfigError, c: Settings) {
    match e
    case MissingAnthropicKey => c.llmProvider == "claude" && !Present(c.anthropicKey)
    case MissingGoogleKey => c.llmProvider == "gemini" && !Present(c.googleKey)
    case UnknownLlmProvider(name) => name == c.llmProvider && c.llmProvider !in LlmProviders
    case MissingSerpApiKey => c.searchProvider == "serpapi" && !Present(c.serpApiKey)
    case MissingPerplexityKey => c.searchProvider == "perplexity" && !Present(c.perplexityKey)
    case UnknownSearchProvider(name) => name == c.searchProvider && c.searchProvider !in SearchProviders
  }

  /** The position of a problem in the order of the checks. */
  function CheckOrder(e: ConfigError): nat {
    match e
    case MissingAnthropicKey => 0
    case MissingGoogleKey => 1
    case UnknownLlmProvider(_) => 2
    case MissingSerpApiKey => 3
    case MissingPerplexityKey => 4
    case UnknownSearchProvider(_) => 5
  }

  /** The error text of each problem. */
  function Message(e: ConfigError): string {
    match e
    case MissingAnthropicKey => "ANTHROPIC_API_KEY is required when LLM_PROVIDER is 'claude'"
    case MissingGoogleKey => "GOOGLE_API_KEY is required when LLM_PROVIDER is 'gemini'"
    case UnknownLlmProvider(name) => "Invalid LLM_PROVIDER: " + name + ". Must be 'claude' or 'gemini'"
    case MissingSerpApiKey =>
      "SERPAPI_API_KEY is required when SEARCH_PROVIDER is 'serpapi'\n"
      + "  Get a free API key at: https://serpapi.com/manage-api-key"
    case MissingPerplexityKey =>
      "PERPLEXITY_API_KEY is required when SEARCH_PROVIDER is 'perplexity'\n"
      + "  Get an API key at: https://www.perplexity.ai/settings/api"
    case UnknownSearchProvider(name) => "Invalid SEARCH_PROVIDER: " + name + ". Must be 'serpapi' or 'perplexity'"
  }

  /** One check: the problem when it applies, nothing otherwise. */
  function Check(e: ConfigError, c: Settings): seq<ConfigError> {
    if Applies(e, c) then [e] else []
  }

  /** The problems of a configuration: exactly the ones that apply, each
      once, in the order of the checks. */
  function Errors(c: Settings): (errs: seq<ConfigError>)
    ensures forall e :: e in errs <==> Applies(e, c)
    ensures forall i, j :: 0 <= i < j < |errs| ==> CheckOrder(errs[i]) < CheckOrder(errs[j])
  {
    LlmErrors(c) + SearchErrors(c)
  }

  /** The problems with the language-model provider, the first three checks. */
  function LlmErrors(c: Settings): (errs: seq<ConfigError>)
    ensures forall e :: e in errs <==> Applies(e, c) && CheckOrder(e) < 3
    ensures forall i, j :: 0 <= i < j < |errs| ==> CheckOrder(errs[i]) < CheckOrder(errs[j])
  {
    Check(MissingAnthropicKey, c) + Check(MissingGoogleKey, c) + Check(UnknownLlmProvider(c.llmProvider), c)
  }

  /** The problems with the search provider, the last three checks. */
  function SearchErrors(c: Settings): (errs: seq<ConfigError>)
    ensures forall e :: e in errs <==> Applies(e, c) && CheckOrder(e) >= 3
    ensures forall i, j :: 0 <= i < j < |errs| ==> CheckOrder(errs[i]) < CheckOrder(errs[j])
  {
    Check(MissingSerpApiKey, c) + Check(MissingPerplexityKey, c) + Check(UnknownSearchProvider(c.searchProvider), c)
  }

  /** A configuration passes exactly when a known language-model provider
      has its key and a known search provider has its key. */
  lemma {:induction false} ValidIff(c: Settings)
    ensures Errors(c) == [] <==>
      && ((c.llmProvider == "claude" && Present(c.anthropicKey)) || (c.llmProvider == "gemini" && Present(c.googleKey)))
      && ((c.searchProvider == "serpapi" && Present(c.serpApiKey)) || (c.searchProvider == "perplexity" && Present(c.perplexityKey)))
  {
    if Errors(c) == [] {
      assert !Applies(UnknownLlmProvider(c.llmProvider), c);
      assert !Applies(UnknownSearchProvider(c.searchProvider), c);
    }
  }

  /** At most one problem with the language model and one with the search
      provider is reported. */
  lemma AtMostTwoErrors(c: Settings)
    ensures |Errors(c)| <= 2
  {
  }

  /** The text of the raised `ValueError`: every problem on its own line. */
  function ErrorText(errs: seq<ConfigError>): string {
    "Configuration errors:\n" + Join(ErrorLines(errs), "\n")
  }

  function ErrorLines(errs: seq<ConfigError>): (lines: seq<string>)
    ensures |lines| == |errs|
    ensures forall i :: 0 <= i < |errs| ==> lines[i] == "  - " + Message(errs[i])
  {
    seq(|errs|, i requires 0 <= i < |errs| => "  - " + Message(errs[i]))
  }

  /** A part of a join occurs in it, at the offset returned. */
  lemma {:induction false} JoinHasPart(parts: seq<string>, sep: string, i: nat) returns (k: nat)
    requires i < |parts|
    ensures MatchAt(Join(parts, sep), parts[i], k)
    decreases i
  {
    var s := Join(parts, sep);
    if |parts| == 1 {
      k := 0;
    } else if i == 0 {
      assert s == parts[0] + (sep + Join(parts[1..], sep));
      k := 0;
    } else {
      var k' := JoinHasPart(parts[1..], sep, i - 1);
      var rest := Join(parts[1..], sep);
      var prefix := parts[0] + sep;
      assert s == prefix + rest;
      assert parts[1..][i - 1] == parts[i];
      k := |prefix| + k';
      assert s[k..k + |parts[i]|] == rest[k'..k' + |parts[i]|];
    }
  }

  /** The error text has a line for each problem of the list. */
  lemma ErrorTextHasLine(errs: seq<ConfigError>, i: nat)
    requires i < |errs|
    ensures Contains(ErrorText(errs), "  - " + Message(errs[i]))
  {
    var lines := ErrorLines(errs);
    var k := JoinHasPart(lines, "\n", i);
    var j := Join(lines, "\n");
    var head := "Configuration errors:\n";
    var text := ErrorText(errs);
    assert text == head + j;
    assert text[|head| + k..|head| + k + |lines[i]|] == j[k..k + |lines[i]|];
    ContainsAt(text, lines[i], |head| + k);
  }

  /** The raised message names every problem, not only the first. */
  lemma ErrorTextListsAll(c: Settings, e: ConfigError)
    requires Applies(e, c)
    ensures Contains(ErrorText(Errors(c)), "  - " + Message(e))
  {
    var errs := Errors(c);
    var i :| 0 <= i < |errs| && errs[i] == e;
    ErrorTextHasLine(errs, i);
  }

  /** `validate`: the checks append to the list of problems one after the
      other; the configuration is refused when the list is not empty. */
  method Validate(c: Settings) returns (r: Result<(), string>)
    ensures r.Ok? <==> Errors(c) == []
    ensures r.Err? ==> r.error == ErrorText(Errors(c))
  {
    var errors := CheckLlm(c);
    errors := CheckSearch(c, errors);
    if errors != [] {
      return Err(ErrorText(errors));
    }
    return Ok(());
  }

  /** The three checks of the language-model provider. */
  method CheckLlm(c: Settings) returns (errors: seq<ConfigError>)
    ensures errors == LlmErrors(c)
  {
    errors := [];
    if c.llmProvider == "claude" && !Present(c.anthropicKey) {
      errors := errors + [MissingAnthropicKey];
    }
    if c.llmProvider == "gemini" && !Present(c.googleKey) {
      errors := errors + [MissingGoogleKey];
    }
    if c.llmProvider !in LlmProviders {
      errors := errors + [UnknownLlmProvider(c.llmProvider)];
    }
  }

  /** The three checks of the search provider, appended to `before`. */
  method CheckSearch(c: Settings, before: seq<ConfigError>) returns (errors: seq<ConfigError>)
    ensures errors == before + SearchErrors(c)
  {
    errors := before;
    if c.searchProvider == "serpapi" && !Present(c.serpApiKey) {
      errors := errors + [MissingSerpApiKey];
    }
    if c.searchProvider == "perplexity" && !Present(c.perplexityKey) {
      errors := errors + [MissingPerplexityKey];
    }
    if c.searchProvider !in SearchProviders {
      errors := errors + [UnknownSearchProvider(c.searchProvider)];
    }
  }
}
