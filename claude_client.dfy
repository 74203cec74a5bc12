/**
 * The deterministic parts of the AI client: pulling the JSON out of a model
 * reply, the per-project-type default suggestions, and the fallbacks taken
 * when a reply cannot be parsed. The SDK call itself is an input (`SdkReply`)
 * and `JSON.parse` is a function parameter.
 */
module ClaudeClient {
  import opened Wrappers
  import opened Strings

  // ---------------------------------------------------------------------
  // extractJSON
  // ---------------------------------------------------------------------

  predicate IsOpener(c: char) { c == '{' || c == '[' }
  predicate IsCloser(c: char) { c == '}' || c == ']' }

  /** `replace(/\s*```$/, '')`: a closing fence and the whitespace before it. */
  function StripClosingFence(s: string): (r: string)
    ensures |r| <= |s| && r == s[..|r|]
    ensures !EndsWith(s, "```") ==> r == s
  {
    if EndsWith(s, "```") then
      var t := s[..|s| - 3];
      TrimEndPrefix(t);
      assert t[..|TrimEnd(t)|] == s[..|TrimEnd(t)|];
      TrimEnd(t)
    else s
  }

  /** The fence-stripping step, applied to already trimmed text. */
  function StripFences(t: string): (r: string)
    ensures !StartsWith(t, "```") ==> r == t
    ensures |r| <= |t|
  {
    if StartsWith(t, "```json") then StripClosingFence(TrimStart(t[7..]))
    else if StartsWith(t, "```") then StripClosingFence(TrimStart(t[3..]))
    else t
  }

  /** The position of the first `{` or `[`, or -1. */
  function FirstOpener(s: string): (r: int)
    ensures -1 <= r < |s|
    ensures r >= 0 ==> IsOpener(s[r])
    ensures forall i :: 0 <= i < |s| && (r < 0 || i < r) ==> !IsOpener(s[i])
  {
    var a := IndexOf(s, '{');
    var b := IndexOf(s, '[');
    if a < 0 then b else if b < 0 then a else if a < b then a else b
  }

  /** The position of the last `}` or `]`, or -1. */
  function LastCloser(s: string): (r: int)
    ensures -1 <= r < |s|
    ensures r >= 0 ==> IsCloser(s[r])
    ensures forall i :: r < i < |s| ==> !IsCloser(s[i])
  {
    var a := LastIndexOf(s, '}');
    var b := LastIndexOf(s, ']');
    if a > b then a else b
  }

  /** The text `extractJSON` searches: trimmed, without code fences. */
  function Cleaned(text: string): string {
    StripFences(Trim(text))
  }

  /** The slice `extractJSON` takes out of cleaned text `c`. */
  function JsonSlice(c: string): (r: string)
    ensures var first := FirstOpener(c);
      var last := LastCloser(c);
      && (first < 0 || last < 0 ==> r == c)
      && (0 <= first <= last ==> r == c[first..last + 1] && IsOpener(r[0]) && IsCloser(r[|r| - 1]))
      && (0 <= last < first ==> r == c[last + 1..first])
  {
    var first := FirstOpener(c);
    var last := LastCloser(c);
    if first < 0 || last < 0 then c
    else if first <= last + 1 then c[first..last + 1]
    else c[last + 1..first]  // `substring` swaps bounds given in the wrong order
  }

  /** `extractJSON`. */
  function ExtractJson(text: string): string {
    JsonSlice(Cleaned(text))
  }

  /** Text that already starts with an opener and ends with a closer comes back unchanged. */
  lemma ExtractJsonFixedPoint(s: string)
    requires |s| > 0 && IsOpener(s[0]) && IsCloser(s[|s| - 1])
    ensures ExtractJson(s) == s
  {
    assert TrimStart(s) == s;
    assert TrimEnd(s) == s;
    assert !StartsWith(s, "```");
    assert Cleaned(s) == s;
  }

  /** Whenever an opener precedes a closer, extracting again changes nothing. */
  lemma ExtractJsonIdempotent(text: string)
    requires var c := Cleaned(text); 0 <= FirstOpener(c) <= LastCloser(c)
    ensures ExtractJson(ExtractJson(text)) == ExtractJson(text)
  {
    var c := Cleaned(text);
    var x := JsonSlice(c);
    assert ExtractJson(text) == x;
    assert |x| > 0 && IsOpener(x[0]) && IsCloser(x[|x| - 1]);
    ExtractJsonFixedPoint(x);
  }

  /** A closer before the first opener yields the text between them: `"} x {"` gives `" x "`. */
  lemma SwappedBoundsExample()
    ensures JsonSlice("} x {") == " x "
  {
    var s := "} x {";
    assert FirstOpener(s) == 4 by {
      assert IndexOf(s, '[') == -1;
    }
    assert LastCloser(s) == 0 by {
      assert LastIndexOf(s, ']') == -1;
    }
  }

  // ---------------------------------------------------------------------
  // Default suggestions and parse fallbacks
  // ---------------------------------------------------------------------

  datatype TechChoice = TechChoice(frontend: string, backend: string, database: string)

  datatype Suggestions = Suggestions(features: seq<string>, techStack: TechChoice, reasoning: string)

  const SaasDefaults := Suggestions(
    ["auth", "database", "api", "payment", "email"],
    TechChoice("react", "node", "postgresql"),
    "Standard SaaS stack with authentication, payments, and database.")

  /** `getDefaultSuggestions`: the saas, website and api tables; every other type gets the saas one. */
  function GetDefaultSuggestions(projectType: string): (r: Suggestions)
    ensures projectType !in {"website", "api"} ==> r == SaasDefaults
    ensures projectType == "website" ==> r.techStack.frontend == "astro" && r.techStack.backend == "none"
    ensures projectType == "api" ==> r.techStack.frontend == "none" && r.techStack.backend == "node"
    ensures |r.features| == if projectType == "saas" || projectType !in {"website", "api"} then 5 else 3
  {
    match projectType
    case "website" =>
      Suggestions(["api", "email", "analytics"], TechChoice("astro", "none", "none"),
        "Static website with minimal backend requirements.")
    case "api" =>
      Suggestions(["database", "api", "auth"], TechChoice("none", "node", "postgresql"),
        "Backend API with database and authentication.")
    case _ => SaasDefaults
  }

  /** What `messages.create` produced: an error, a non-text first block, or text. */
  datatype SdkReply = SdkFailed(message: string) | NonTextContent | TextContent(text: string)

  /** An MCP recommendation as the model returns it. */
  datatype Rec = Rec(id: string, required: bool, reasoning: string)

  /** `JSON.parse` of the extracted text, as far as `recommendMCPs` looks at it. */
  datatype RecsParse =
    | RecsUnparseable
    | RecsParsed(recommendations: Option<seq<Rec>>)  // None: missing or not an array

  /** `recommendMCPs` either returns recommendations or throws. */
  datatype RecommendOutcome = Recommended(recs: seq<Rec>) | RecommendThrew(message: string)

  const UnexpectedFormat := "Unexpected response format"

  const FallbackRecs: seq<Rec> := [
    Rec("desktop-commander", true, "Required for file operations"),
    Rec("github", true, "Required for version control")]

  /** `recommendMCPs` after the SDK call. */
  function RecommendMcps(reply: SdkReply, parse: string -> RecsParse): (r: RecommendOutcome)
    ensures reply.SdkFailed? ==> r == RecommendThrew(reply.message)
    ensures reply.NonTextContent? ==> r == RecommendThrew(UnexpectedFormat)
    ensures reply.TextContent? ==>
      match parse(ExtractJson(reply.text))
      case RecsParsed(Some(recs)) => r == Recommended(recs)
      case _ => r == Recommended(FallbackRecs)
  {
    match reply
    case SdkFailed(m) => RecommendThrew(m)
    case NonTextContent => RecommendThrew(UnexpectedFormat)
    case TextContent(text) =>
      match parse(ExtractJson(text))
      case RecsParsed(Some(recs)) => Recommended(recs)
      case _ => Recommended(FallbackRecs)
  }

  /** The fallback is exactly Desktop Commander then GitHub, both required. */
  lemma FallbackIsRequiredPair(reply: SdkReply, parse: string -> RecsParse)
    requires reply.TextContent? && !parse(ExtractJson(reply.text)).RecsParsed?
    ensures var r := RecommendMcps(reply, parse);
      r.Recommended? && |r.recs| == 2
      && r.recs[0].id == "desktop-commander" && r.recs[1].id == "github"
      && r.recs[0].required && r.recs[1].required
  {
  }

  /** `JSON.parse` of the extracted text, as far as `generateTechStackSuggestions` looks at it. */
  datatype TechParse =
    | TechUnparseable
    | TechParsed(features: Option<seq<string>>, techStack: Option<TechChoice>, reasoning: Option<string>)

  datatype SuggestOutcome = Suggested(suggestions: Suggestions) | SuggestThrew(message: string)

  /** `generateTechStackSuggestions` after the SDK call. */
  function GenerateTechStackSuggestions(projectType: string, reply: SdkReply, parse: string -> TechParse)
    : (r: SuggestOutcome)
    ensures reply.SdkFailed? ==> r == SuggestThrew(reply.message)
    ensures reply.NonTextContent? ==> r == SuggestThrew(UnexpectedFormat)
    ensures reply.TextContent? ==> r.Suggested?
    ensures reply.TextContent? && r.suggestions != GetDefaultSuggestions(projectType) ==>
      var p := parse(ExtractJson(reply.text));
      p.TechParsed? && p.features == Some(r.suggestions.features)
      && p.techStack == Some(r.suggestions.techStack) && Truthy(p.reasoning)
    ensures reply.TextContent? ==>
      var p := parse(ExtractJson(reply.text));
      p.TechParsed? && p.features.Some? && p.techStack.Some? && Truthy(p.reasoning) ==>
        r == Suggested(Suggestions(p.features.value, p.techStack.value, p.reasoning.value))
  {
    match reply
    case SdkFailed(m) => SuggestThrew(m)
    case NonTextContent => SuggestThrew(UnexpectedFormat)
    case TextContent(text) =>
      match parse(ExtractJson(text))
      case TechParsed(Some(features), Some(stack), reasoning) =>
        if Truthy(reasoning) then Suggested(Suggestions(features, stack, reasoning.value))
        else Suggested(GetDefaultSuggestions(projectType))
      case _ => Suggested(GetDefaultSuggestions(projectType))
  }
}
