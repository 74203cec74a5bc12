/**
 * `POST /api/analyze`: checks the session, requires a name, a description
 * and a type, builds the configuration from the request and answers with
 * the full analysis under the key `analysis`.
 */
module AnalyzeRoute {
  import opened Wrappers
  import opened Types
  import opened RequestConfig
  import Analysis

  const SessionValue := "authenticated"
  const MissingFields := "Missing required fields: projectName/name, description, projectType/type"

  /**
   * The request body: not JSON, the JSON value `null` (reading a field of
   * it throws), or any other value, read field by field. A value that is
   * not an object has no fields, so it is a `Fields` with every field absent.
   */
  datatype Body = NotJson | Null | Fields(raw: RawConfig)

  /** A 500 carries the runtime's message, which is not modelled. */
  datatype Response =
    | Unauthorized
    | BadRequest(error: string)
    | ServerError
    | Analyzed(analysis: AnalysisResult)

  function Status(r: Response): int {
    match r
    case Unauthorized => 401
    case BadRequest(_) => 400
    case ServerError => 500
    case Analyzed(_) => 200
  }

  /** `body.estimatedComplexity || 'moderate'`, used only when no metadata is sent. */
  function Complexity(raw: RawConfig): string {
    if Truthy(raw.estimatedComplexity) then raw.estimatedComplexity.value else DefaultComplexity
  }

  /** Name, description and type are all given and non-empty. */
  predicate HasRequiredFields(raw: RawConfig) {
    Truthy(NameOf(raw)) && Truthy(raw.description) && Truthy(TypeOf(raw))
  }

  /**
   * The response for a request, where `mcps` is the server list the MCP
   * step settles on (the AI recommendation, or the required servers when
   * that fails); `Post` computes it from the AI outcome.
   */
  function Respond(authToken: Option<string>, body: Body, mcps: seq<McpServer>): Response {
    if authToken != Some(SessionValue) then Unauthorized
    else
      match body
      case NotJson => ServerError
      case Null => ServerError
      case Fields(raw) =>
        if !HasRequiredFields(raw) then BadRequest(MissingFields)
        else Analyzed(Analysis.AnalysisFor(ConfigOf(raw, Complexity(raw)), mcps))
  }

  /**
   * `POST /api/analyze`. The MCP servers `analyzeMCPs` settles on are an
   * input: how they follow from the recommendation call is
   * `Analysis.AnalyzeMcps`, and `Analysis.Analyze` puts the two steps together.
   */
  method Post(authToken: Option<string>, body: Body, mcps: seq<McpServer>) returns (response: Response)
    ensures response == Respond(authToken, body, mcps)
  {
    if authToken != Some(SessionValue) {
      return Unauthorized;
    }
    match body
    case NotJson =>
      response := ServerError;
    case Null =>
      response := ServerError;
    case Fields(raw) =>
      var projectName := OrElse(raw.projectName, raw.name);
      var projectType := OrElse(raw.projectType, raw.kind);
      if !Truthy(projectName) || !Truthy(raw.description) || !Truthy(projectType) {
        return BadRequest(MissingFields);
      }
      var complexity := if Truthy(raw.estimatedComplexity) then raw.estimatedComplexity.value else DefaultComplexity;
      var config := ConfigOf(raw, complexity);
      var agents, tasks, protocol := Analysis.AnalyzeTeam(config, mcps);
      response := Analyzed(AnalysisResult(config, mcps, agents, tasks, protocol));
  }

  /**
   * The checks in order: no session gives 401 whatever the body; a body
   * that is not JSON, or is `null`, gives 500; a missing name, description
   * or type gives 400; everything else gives 200.
   */
  lemma RespondSpec(authToken: Option<string>, body: Body, mcps: seq<McpServer>)
    ensures var r := Respond(authToken, body, mcps);
      && (r == Unauthorized <==> authToken != Some(SessionValue))
      && (Status(r) == 500 <==> authToken == Some(SessionValue) && !body.Fields?)
      && (r == BadRequest(MissingFields) <==>
            && authToken == Some(SessionValue) && body.Fields?
            && (|| !(Truthy(body.raw.projectName) || Truthy(body.raw.name))
                || !Truthy(body.raw.description)
                || !(Truthy(body.raw.projectType) || Truthy(body.raw.kind))))
      && (Status(r) == 200 <==> authToken == Some(SessionValue) && body.Fields? && HasRequiredFields(body.raw))
      && (Status(r) == 200 <==> r.Analyzed?)
  {
  }

  /**
   * The configuration analysed carries the request's name, description
   * and type, with `projectName` and `projectType` winning over `name` and
   * `type`; metadata that is not sent gets the request's complexity, or
   * `moderate`, with the default duration and team size.
   */
  lemma AnalyzedConfig(authToken: Option<string>, raw: RawConfig, mcps: seq<McpServer>)
    requires Respond(authToken, Fields(raw), mcps).Analyzed?
    ensures var c := Respond(authToken, Fields(raw), mcps).analysis.project;
      && c.name == (if Truthy(raw.projectName) then raw.projectName.value else raw.name.value)
      && c.description == raw.description.value
      && c.projectType == (if Truthy(raw.projectType) then raw.projectType.value else raw.kind.value)
      && c.name != "" && c.description != "" && c.projectType != ""
      && (raw.metadata.Some? ==> c.metadata == raw.metadata.value)
      && (raw.metadata.None? && Truthy(raw.estimatedComplexity) ==>
            c.metadata == Metadata(raw.estimatedComplexity.value, DefaultDuration, DefaultTeamSize, None))
      && (raw.metadata.None? && !Truthy(raw.estimatedComplexity) ==>
            c.metadata == Metadata("moderate", DefaultDuration, DefaultTeamSize, None))
  {
    NameAndType(raw, Complexity(raw));
  }

  /**
   * A successful response is the whole analysis of that configuration:
   * the servers the MCP step settled on, one agent per expected role, and
   * every task assigned to one of those agents.
   */
  lemma AnalyzedResult(authToken: Option<string>, raw: RawConfig, mcps: seq<McpServer>)
    requires Respond(authToken, Fields(raw), mcps).Analyzed?
    ensures var a := Respond(authToken, Fields(raw), mcps).analysis;
      && a.project == ConfigOf(raw, Complexity(raw))
      && a.recommendedMcps == mcps
      && AgentIds(a.requiredAgents) == Analysis.ExpectedRoster(a.project)
      && forall i :: 0 <= i < |a.taskBreakdown| ==> a.taskBreakdown[i].assignedAgent in AgentIds(a.requiredAgents)
  {
    Analysis.AnalysisShape(ConfigOf(raw, Complexity(raw)), mcps);
  }

  /**
   * Without metadata or a complexity in the request, this route analyses
   * the same configuration as the one `POST /api/generate` builds from the
   * same fields; a request complexity changes only the default metadata.
   */
  lemma SameConfigAsGenerate(raw: RawConfig)
    ensures raw.metadata.Some? || !Truthy(raw.estimatedComplexity) ==>
      ConfigOf(raw, Complexity(raw)) == ConfigOf(raw, DefaultComplexity)
    ensures var a := ConfigOf(raw, Complexity(raw));
      var g := ConfigOf(raw, DefaultComplexity);
      a.name == g.name && a.description == g.description && a.projectType == g.projectType &&
      a.features == g.features && a.techStack == g.techStack
  {
  }
}
