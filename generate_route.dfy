/**
 * `POST /api/generate`: checks the session, builds the configuration from
 * the request, validates and sanitises the project name, analyses the
 * project, renders the prompt, then creates the project's directories and
 * writes its files. The handler's effect on the disk is the list of
 * directories it creates and the list of files it writes, in order;
 * whether `mkdirSync` and `writeFileSync` throw is an input. File contents
 * are represented by what they are rendered from.
 */
module GenerateRoute {
  import opened Wrappers
  import opened Seqs
  import opened Types
  import opened RequestConfig
  import opened Strings
  import FeatureMapping
  import ClaudeClient
  import Analysis
  import PromptGenerator
  import FileStructure

  const SessionValue := "authenticated"
  const MissingConfig := "Missing project configuration"
  const InvalidName := "Invalid project name"

  /** The request body: not JSON, or an object whose `config` is an object or null. */
  datatype Body = Unparsable | Body(config: Option<RawConfig>)

  /** A path as the segments given to `path.join`. */
  type Path = seq<string>

  function ProjectPath(sanitizedName: string): Path { ["C:", "claude_projects", sanitizedName] }

  function PromptPath(root: Path): Path { root + [".claude", "PROJECT_PROMPT.md"] }

  function AgentPath(root: Path, id: string): Path { root + [".claude", "agents", id + ".md"] }

  /** The five subdirectories created after the project directory. */
  function Subdirectories(root: Path): seq<Path> {
    [root + [".claude"], root + [".claude", "agents"], root + ["src"], root + ["docs"], root + ["tests"]]
  }

  // ---------------------------------------------------------------------
  // Responses
  // ---------------------------------------------------------------------

  /** Why a request ends in a 500. */
  datatype Failure = BodyNotJson | ConfigNull | DirectoriesFailed | WritesFailed

  datatype Totals = Totals(agents: nat, mcps: nat, tasks: nat)

  datatype Response =
    | Unauthorized
    | BadRequest(error: string)
    | ServerError(failure: Failure)
    | Generated(projectPath: Path, promptPath: Path, sanitizedName: string,
                prompt: seq<PromptGenerator.Section>, totals: Totals)

  function Status(r: Response): int {
    match r
    case Unauthorized => 401
    case BadRequest(_) => 400
    case ServerError(_) => 500
    case Generated(_, _, _, _, _) => 200
  }

  /**
   * The error text of a 500: the route's own message when it rethrows a
   * file system failure; otherwise the runtime's message for the bad body
   * or the null configuration, which is not modelled.
   */
  function FailureMessage(f: Failure): Option<string> {
    match f
    case DirectoriesFailed => Some("Failed to create project directories")
    case WritesFailed => Some("Failed to write project files")
    case _ => None
  }

  // ---------------------------------------------------------------------
  // Request checks
  // ---------------------------------------------------------------------

  /** The outcome of the checks before any work: a response, or the configuration and the folder name. */
  datatype Checked = Rejected(response: Response) | Accepted(config: ProjectConfig, sanitizedName: string)

  /**
   * The session check, the body, the configuration (with `moderate` as the
   * default complexity) and the name. A null `config` fails when its
   * `features` is read, before any validation.
   */
  function Check(authToken: Option<string>, body: Body): Checked {
    if authToken != Some(SessionValue) then Rejected(Unauthorized)
    else
      match body
      case Unparsable => Rejected(ServerError(BodyNotJson))
      case Body(None) => Rejected(ServerError(ConfigNull))
      case Body(Some(raw)) =>
        var config := ConfigOf(raw, DefaultComplexity);
        if config.name == "" then Rejected(BadRequest(MissingConfig))
        else if FileStructure.Sanitize(config.name) == "" then Rejected(BadRequest(InvalidName))
        else Accepted(config, FileStructure.Sanitize(config.name))
  }

  /**
   * The checks in order: no session gives 401 whatever the body; then a
   * body that is not JSON or a null configuration gives 500; then a
   * missing name, then a name with nothing left after sanitising, gives
   * 400. A request that passes has a non-empty folder name made of
   * lower-case letters, digits and single hyphens, which sanitising again
   * leaves as it is.
   */
  lemma CheckSpec(authToken: Option<string>, body: Body)
    ensures authToken != Some(SessionValue) <==> Check(authToken, body) == Rejected(Unauthorized)
    ensures authToken == Some(SessionValue) && body.Unparsable? ==> Check(authToken, body) == Rejected(ServerError(BodyNotJson))
    ensures authToken == Some(SessionValue) && body == Body(None) ==> Check(authToken, body) == Rejected(ServerError(ConfigNull))
    ensures authToken == Some(SessionValue) && body.Body? && body.config.Some? ==>
      var raw := body.config.value;
      && (Check(authToken, body) == Rejected(BadRequest(MissingConfig)) <==> !Truthy(raw.projectName) && !Truthy(raw.name))
      && (Check(authToken, body) == Rejected(BadRequest(InvalidName)) <==>
            Text(NameOf(raw)) != "" && FileStructure.Sanitize(Text(NameOf(raw))) == "")
    ensures Check(authToken, body).Accepted? ==>
      var name := Check(authToken, body).sanitizedName;
      && name != [] && NoDoubled(name, '-')
      && (forall i :: 0 <= i < |name| ==> NameChar(name[i]))
      && FileStructure.Sanitize(name) == name
  {
    if body.Body? && body.config.Some? {
      NameAndType(body.config.value, DefaultComplexity);
    }
    if Check(authToken, body).Accepted? {
      var c := Check(authToken, body);
      FileStructure.SanitizeShape(c.config.name);
      FileStructure.SanitizeFixpoint(c.sanitizedName);
    }
  }

  // ---------------------------------------------------------------------
  // buildAgentMarkdown
  // ---------------------------------------------------------------------

  const CriterionPrefix := "Successfully completed: "

  /** An agent file: its heading, role, priority, lists and the date it was generated. */
  datatype AgentDoc = AgentDoc(
    name: string,
    role: string,
    priority: Priority,
    responsibilities: seq<string>,
    mcpAccess: seq<string>,
    collaborators: seq<string>,
    criteria: seq<string>,
    generatedAt: nat)

  /** One success criterion per responsibility. */
  function Criteria(responsibilities: seq<string>): (r: seq<string>)
    ensures |r| == |responsibilities|
    ensures forall i :: 0 <= i < |r| ==> r[i] == CriterionPrefix + responsibilities[i]
  {
    seq(|responsibilities|, i requires 0 <= i < |responsibilities| => CriterionPrefix + responsibilities[i])
  }

  function AgentDocOf(agent: Agent, now: nat): AgentDoc {
    AgentDoc(agent.name, agent.role, agent.priority, agent.responsibilities, agent.mcpAccess,
             PromptGenerator.CollaboratorLines(agent.collaboratesWith), Criteria(agent.responsibilities), now)
  }

  /**
   * An agent without collaborators is listed as working independently;
   * otherwise its collaborators are listed in order. Each responsibility
   * yields one success criterion that ends with it.
   */
  lemma AgentDocSpec(agent: Agent, now: nat)
    ensures var d := AgentDocOf(agent, now);
      && (agent.collaboratesWith == [] ==> d.collaborators == [PromptGenerator.WorksIndependently])
      && (agent.collaboratesWith != [] ==> d.collaborators == agent.collaboratesWith)
      && |d.criteria| == |d.responsibilities| == |agent.responsibilities|
      && forall i :: 0 <= i < |d.criteria| ==>
           d.criteria[i][|CriterionPrefix|..] == agent.responsibilities[i] && StartsWith(d.criteria[i], CriterionPrefix)
  {
  }

  // ---------------------------------------------------------------------
  // mcp-config.json and package.json
  // ---------------------------------------------------------------------

  /** An entry of `mcpServers` in `.claude/mcp-config.json`. */
  datatype McpEntry = McpEntry(
    id: string,
    name: string,
    required: bool,
    enabled: bool,
    description: string,
    capabilities: seq<string>)

  /** Desktop Commander and GitHub are always marked required, whatever the recommendation said. */
  predicate AlwaysRequired(id: string) { id == "desktop-commander" || id == "github" }

  function McpEntryOf(m: McpServer): McpEntry {
    McpEntry(m.id, m.name, m.required == Some(true) || AlwaysRequired(m.id), true, m.description, m.capabilities)
  }

  /**
   * One entry per recommended server, in order, each enabled, copying the
   * server's id, name, description and capabilities; an entry is required
   * iff the server was marked required or is Desktop Commander or GitHub.
   */
  function McpEntries(mcps: seq<McpServer>): (r: seq<McpEntry>)
    ensures |r| == |mcps|
    ensures forall i :: 0 <= i < |r| ==>
      && r[i].id == mcps[i].id && r[i].name == mcps[i].name && r[i].enabled
      && r[i].description == mcps[i].description && r[i].capabilities == mcps[i].capabilities
      && (r[i].required <==> mcps[i].required == Some(true) || AlwaysRequired(mcps[i].id))
  {
    seq(|mcps|, i requires 0 <= i < |mcps| => McpEntryOf(mcps[i]))
  }

  /**
   * When the recommendation call throws, the analysis falls back on Desktop
   * Commander and GitHub, and both entries are required.
   */
  lemma FallbackEntriesRequired(message: string)
    ensures var entries := McpEntries(Analysis.McpsOf(ClaudeClient.RecommendThrew(message)));
      |entries| == 2 && forall i :: 0 <= i < |entries| ==> entries[i].required
  {
    Analysis.McpsOfSpec(ClaudeClient.RecommendThrew(message));
  }

  /** `package.json`; the fixed `scripts` and the empty `author` are left out. */
  datatype PackageManifest = PackageManifest(
    name: string,
    version: string,
    description: string,
    moduleType: string,
    keywords: seq<string>,
    license: string)

  const PackageVersion := "0.1.0"

  function PackageOf(config: ProjectConfig, sanitizedName: string): PackageManifest {
    PackageManifest(sanitizedName, PackageVersion, config.description, "module", [config.projectType, "generated-project"], "MIT")
  }

  // ---------------------------------------------------------------------
  // .env.example and src/index
  // ---------------------------------------------------------------------

  /** The blocks of `.env.example`, in the order they are appended. */
  datatype EnvSection = GeneralVars | DatabaseVars | AuthVars | AiVars

  /** The feature category an optional block answers to. */
  function SectionCategory(e: EnvSection): string {
    match e
    case GeneralVars => ""
    case DatabaseVars => "database"
    case AuthVars => "authentication"
    case AiVars => "ai"
  }

  /** The blocks: always the general one, then each optional block whose category some feature has. */
  function EnvSectionsOf(config: ProjectConfig): seq<EnvSection> {
    [GeneralVars]
    + FileStructure.Opt(HasFeatureCategory(config, "database"), DatabaseVars)
    + FileStructure.Opt(HasFeatureCategory(config, "authentication"), AuthVars)
    + FileStructure.Opt(HasFeatureCategory(config, "ai"), AiVars)
  }

  /** `buildEnvExample`: the general block, then one `+=` per category present. */
  method BuildEnvExample(config: ProjectConfig) returns (blocks: seq<EnvSection>)
    ensures blocks == EnvSectionsOf(config)
  {
    blocks := [GeneralVars];
    if exists i :: 0 <= i < |config.features| && config.features[i].category == "database" {
      blocks := blocks + [DatabaseVars];
    }
    if exists i :: 0 <= i < |config.features| && config.features[i].category == "authentication" {
      blocks := blocks + [AuthVars];
    }
    if exists i :: 0 <= i < |config.features| && config.features[i].category == "ai" {
      blocks := blocks + [AiVars];
    }
  }

  lemma OptMember<T>(s: seq<T>, w: bool, x: T, b: T)
    ensures b in s + FileStructure.Opt(w, x) <==> b in s || (w && b == x)
  {
  }

  /**
   * The general block comes first and only there; every other block is
   * present iff some feature has its category; one block per category
   * present follows the general one.
   */
  lemma EnvSectionsSpec(config: ProjectConfig, e: EnvSection)
    ensures var s := EnvSectionsOf(config);
      && s[0] == GeneralVars && GeneralVars !in s[1..]
      && (e != GeneralVars ==> (e in s <==> HasFeatureCategory(config, SectionCategory(e))))
      && |s| == 1 + Analysis.Ind(HasFeatureCategory(config, "database"))
                  + Analysis.Ind(HasFeatureCategory(config, "authentication"))
                  + Analysis.Ind(HasFeatureCategory(config, "ai"))
  {
    var s0: seq<EnvSection> := [GeneralVars];
    var s1 := s0 + FileStructure.Opt(HasFeatureCategory(config, "database"), DatabaseVars);
    var s2 := s1 + FileStructure.Opt(HasFeatureCategory(config, "authentication"), AuthVars);
    var s3 := s2 + FileStructure.Opt(HasFeatureCategory(config, "ai"), AiVars);
    OptMember(s0, HasFeatureCategory(config, "database"), DatabaseVars, e);
    OptMember(s1, HasFeatureCategory(config, "authentication"), AuthVars, e);
    OptMember(s2, HasFeatureCategory(config, "ai"), AiVars, e);
    assert s3[1..] == s1[1..] + FileStructure.Opt(HasFeatureCategory(config, "authentication"), AuthVars)
                              + FileStructure.Opt(HasFeatureCategory(config, "ai"), AiVars);
  }

  /** No catalogue feature has category `ai`. */
  lemma CatalogueHasNoAi(f: Feature)
    requires FeatureMapping.IsCatalogueFeature(f)
    ensures f.category != "ai"
  {
    var d := FeatureMapping.GetFeatureDefinition(f.id).value;
    assert d in FeatureMapping.Definitions;
  }

  /**
   * The features of a request are all catalogue features, none of which has
   * category `ai`: the AI block never appears in a generated `.env.example`.
   */
  lemma NoAiBlock(raw: RawConfig)
    ensures AiVars !in EnvSectionsOf(ConfigOf(raw, DefaultComplexity))
  {
    var config := ConfigOf(raw, DefaultComplexity);
    FeaturesAndMetadata(raw, DefaultComplexity);
    forall i | 0 <= i < |config.features|
      ensures config.features[i].category != "ai"
    {
      CatalogueHasNoAi(config.features[i]);
    }
    EnvSectionsSpec(config, AiVars);
  }

  /** `getIndexExtension`: only the backend list decides. */
  function IndexExtension(config: ProjectConfig): string {
    if Includes(config.techStack.backend, "TypeScript") then ".ts" else ".js"
  }

  /** `buildIndexFile`: an API server stub for type `api`, an application stub otherwise. */
  datatype IndexStub = ApiServerStub(projectName: string) | AppStub(projectName: string)

  function IndexStubOf(config: ProjectConfig): IndexStub {
    if config.projectType == "api" then ApiServerStub(config.name) else AppStub(config.name)
  }

  /**
   * For a request, the entry point is `index.ts` iff the request chose
   * TypeScript as its backend, else `index.js`; it is the API server stub
   * iff the type is `api`.
   */
  lemma IndexForRequest(raw: RawConfig)
    ensures var config := ConfigOf(raw, DefaultComplexity);
      && (IndexExtension(config) == ".ts" <==> Choice(raw.techStack, (st: RawStack) => st.backend) == Some("TypeScript"))
      && (IndexExtension(config) == ".js" <==> Choice(raw.techStack, (st: RawStack) => st.backend) != Some("TypeScript"))
      && (IndexStubOf(config).ApiServerStub? <==> Text(TypeOf(raw)) == "api")
  {
    StackLayers(raw.techStack, "TypeScript");
  }

  /**
   * The preview tree names the entry point `index.ts` when either the
   * frontend or the backend uses TypeScript; this route looks at the
   * backend only, so a TypeScript frontend over a JavaScript backend gets
   * `index.js` on disk.
   */
  lemma IndexDiffersFromPreview(config: ProjectConfig)
    requires Includes(config.techStack.frontend, "TypeScript") && !Includes(config.techStack.backend, "TypeScript")
    ensures FileStructure.IndexName(FileStructure.UsesTypeScript(config)) == "index.ts"
    ensures "index" + IndexExtension(config) == "index.js"
  {
  }

  // ---------------------------------------------------------------------
  // The handler
  // ---------------------------------------------------------------------

  /** A file the handler writes, by what it is rendered from; README and `.gitignore` text is fixed prose. */
  datatype FileContent =
    | PromptFile(sections: seq<PromptGenerator.Section>)
    | AgentFile(doc: AgentDoc)
    | McpConfigFile(entries: seq<McpEntry>)
    | ReadmeFile(config: ProjectConfig, sanitizedName: string, generatedAt: nat)
    | PackageFile(manifest: PackageManifest)
    | GitignoreFile
    | EnvFile(blocks: seq<EnvSection>)
    | IndexFile(stub: IndexStub)

  datatype FileWrite = FileWrite(path: Path, content: FileContent)

  function WritePaths(ws: seq<FileWrite>): (r: seq<Path>)
    ensures |r| == |ws|
    ensures forall i :: 0 <= i < |ws| ==> r[i] == ws[i].path
  {
    seq(|ws|, i requires 0 <= i < |ws| => ws[i].path)
  }

  function AgentWrite(root: Path, agent: Agent, now: nat): FileWrite {
    FileWrite(AgentPath(root, agent.id), AgentFile(AgentDocOf(agent, now)))
  }

  function AgentWrites(root: Path, agents: seq<Agent>, now: nat): (r: seq<FileWrite>)
    ensures |r| == |agents|
    ensures forall i :: 0 <= i < |agents| ==> r[i] == AgentWrite(root, agents[i], now)
  {
    seq(|agents|, i requires 0 <= i < |agents| => AgentWrite(root, agents[i], now))
  }

  /** The `forEach` that writes one definition file per agent, in roster order. */
  method WriteAgentFiles(root: Path, agents: seq<Agent>, now: nat) returns (ws: seq<FileWrite>)
    ensures ws == AgentWrites(root, agents, now)
  {
    ws := [];
    var i := 0;
    while i < |agents|
      invariant 0 <= i <= |agents|
      invariant |ws| == i
      invariant forall j :: 0 <= j < i ==> ws[j] == AgentWrite(root, agents[j], now)
    {
      ws := ws + [AgentWrite(root, agents[i], now)];
      i := i + 1;
    }
  }

  /** The files after the agent definitions, in the order they are written. */
  function TrailingWrites(root: Path, config: ProjectConfig, sanitizedName: string,
                          mcps: seq<McpServer>, blocks: seq<EnvSection>, now: nat): seq<FileWrite> {
    [FileWrite(root + [".claude", "mcp-config.json"], McpConfigFile(McpEntries(mcps))),
     FileWrite(root + ["README.md"], ReadmeFile(config, sanitizedName, now)),
     FileWrite(root + ["package.json"], PackageFile(PackageOf(config, sanitizedName))),
     FileWrite(root + [".gitignore"], GitignoreFile),
     FileWrite(root + [".env.example"], EnvFile(blocks)),
     FileWrite(root + ["src", "index" + IndexExtension(config)], IndexFile(IndexStubOf(config)))]
  }

  /** Every file the handler writes, in order: the prompt, one file per agent, then the rest. */
  function Writes(root: Path, config: ProjectConfig, sanitizedName: string, analysis: AnalysisResult,
                  sections: seq<PromptGenerator.Section>, now: nat): seq<FileWrite> {
    [FileWrite(PromptPath(root), PromptFile(sections))]
    + AgentWrites(root, analysis.requiredAgents, now)
    + TrailingWrites(root, config, sanitizedName, analysis.recommendedMcps, EnvSectionsOf(config), now)
  }

  /** The directories created: the project directory, then its subdirectories. */
  function Directories(root: Path): seq<Path> { [root] + Subdirectories(root) }

  function TotalsOf(analysis: AnalysisResult): Totals {
    Totals(|analysis.requiredAgents|, |analysis.recommendedMcps|, |analysis.taskBreakdown|)
  }

  /** Whether `mkdirSync` and `writeFileSync` throw, which depends on the file system. */
  datatype IoOutcome = IoOk | MkdirThrows | WriteThrows

  /**
   * The response, with the directories and files the handler completes;
   * what a failing `mkdirSync` or `writeFileSync` leaves behind is not
   * modelled.
   */
  datatype Handled = Handled(response: Response, directories: seq<Path>, writes: seq<FileWrite>)

  /** What the handler does with an accepted request once the analysis is done. */
  function Produce(config: ProjectConfig, sanitizedName: string, analysis: AnalysisResult, now: nat, io: IoOutcome): Handled {
    var sections := PromptGenerator.PromptOf(analysis, now).markdown;
    var root := ProjectPath(sanitizedName);
    if io == MkdirThrows then Handled(ServerError(DirectoriesFailed), [], [])
    else if io == WriteThrows then Handled(ServerError(WritesFailed), Directories(root), [])
    else Handled(Generated(root, PromptPath(root), sanitizedName, sections, TotalsOf(analysis)),
                 Directories(root), Writes(root, config, sanitizedName, analysis, sections, now))
  }

  /** What the handler does, once the analysis has settled on the MCP servers `mcps`. */
  function Respond(authToken: Option<string>, body: Body, mcps: seq<McpServer>, now: nat, io: IoOutcome): Handled {
    match Check(authToken, body)
    case Rejected(response) => Handled(response, [], [])
    case Accepted(config, sanitizedName) => Produce(config, sanitizedName, Analysis.AnalysisFor(config, mcps), now, io)
  }

  /**
   * `POST /api/generate`. The clock and the file system's behaviour are
   * inputs, and so are the MCP servers `analyzeMCPs` settles on: how they
   * follow from the recommendation call is `Analysis.AnalyzeMcps`, and
   * `Analysis.Analyze` puts the two steps together.
   */
  method Post(authToken: Option<string>, body: Body, mcps: seq<McpServer>, now: nat, io: IoOutcome)
    returns (result: Handled)
    ensures result == Respond(authToken, body, mcps, now, io)
  {
    match Check(authToken, body)
    case Rejected(response) =>
      result := Handled(response, [], []);
    case Accepted(config, sanitizedName) =>
      var agents, tasks, protocol := Analysis.AnalyzeTeam(config, mcps);
      result := Generate(config, sanitizedName, AnalysisResult(config, mcps, agents, tasks, protocol), now, io);
  }

  /** The handler after the analysis: the prompt, the directories, the files and the success response. */
  method Generate(config: ProjectConfig, sanitizedName: string, analysis: AnalysisResult, now: nat, io: IoOutcome)
    returns (result: Handled)
    ensures result == Produce(config, sanitizedName, analysis, now, io)
  {
    var prompt := PromptGenerator.Generate(analysis, now);
    var projectPath := ProjectPath(sanitizedName);
    if io == MkdirThrows {
      return Handled(ServerError(DirectoriesFailed), [], []);
    }
    var directories := [projectPath] + Subdirectories(projectPath);
    if io == WriteThrows {
      return Handled(ServerError(WritesFailed), directories, []);
    }
    var agentWrites := WriteAgentFiles(projectPath, analysis.requiredAgents, now);
    var envBlocks := BuildEnvExample(config);
    var writes := [FileWrite(PromptPath(projectPath), PromptFile(prompt.markdown))] + agentWrites
      + TrailingWrites(projectPath, config, sanitizedName, analysis.recommendedMcps, envBlocks, now);
    var totals := Totals(|analysis.requiredAgents|, |analysis.recommendedMcps|, |analysis.taskBreakdown|);
    result := Handled(Generated(projectPath, PromptPath(projectPath), sanitizedName, prompt.markdown, totals),
                      directories, writes);
  }

  // ---------------------------------------------------------------------
  // What the handler promises
  // ---------------------------------------------------------------------

  /** `id + ".md"` determines `id`. */
  lemma SuffixInjective(a: string, b: string, suffix: string)
    requires a + suffix == b + suffix
    ensures a == b
  {
    assert |a| == |b|;
    assert a == (a + suffix)[..|a|];
    assert b == (b + suffix)[..|b|];
  }

  lemma {:induction false} DistinctJoin<T>(a: seq<T>, b: seq<T>, c: seq<T>)
    requires Distinct(a + c) && Distinct(b)
    requires forall x :: x in b ==> x !in a && x !in c
    ensures Distinct(a + b + c)
  {
    var s := a + b + c;
    forall i, j | 0 <= i < j < |s|
      ensures s[i] != s[j]
    {
      var ac := a + c;
      if j < |a| {
        assert s[i] == ac[i] && s[j] == ac[j];
      } else if i >= |a| + |b| {
        assert s[i] == ac[i - |b|] && s[j] == ac[j - |b|];
      } else if i < |a| && j >= |a| + |b| {
        assert s[i] == ac[i] && s[j] == ac[j - |b|];
      } else if |a| <= i && j < |a| + |b| {
        assert s[i] == b[i - |a|] && s[j] == b[j - |a|];
      } else if |a| <= i < |a| + |b| {
        assert s[i] in b && s[j] in c;
      } else {
        assert s[i] in a && s[j] in b;
      }
    }
  }

  /** The files other than the agent files, as paths below the project directory. */
  function FixedNames(extension: string): seq<Path> {
    [[".claude", "PROJECT_PROMPT.md"], [".claude", "mcp-config.json"], ["README.md"], ["package.json"],
     [".gitignore"], [".env.example"], ["src", "index" + extension]]
  }

  lemma FixedNamesDistinct(extension: string)
    requires extension == ".ts" || extension == ".js"
    ensures Distinct(FixedNames(extension))
    ensures forall i :: 0 <= i < 7 ==> |FixedNames(extension)[i]| <= 2
  {
  }

  lemma PrefixedDistinct(root: Path, names: seq<Path>)
    requires Distinct(names)
    ensures Distinct(Prefixed(root, names))
  {
    var r := Prefixed(root, names);
    forall i, j | 0 <= i < j < |r|
      ensures r[i] != r[j]
    {
      assert r[i][|root|..] == names[i] && r[j][|root|..] == names[j];
    }
  }

  function Prefixed(root: Path, names: seq<Path>): (r: seq<Path>)
    ensures |r| == |names|
    ensures forall i :: 0 <= i < |names| ==> r[i] == root + names[i]
  {
    seq(|names|, i requires 0 <= i < |names| => root + names[i])
  }

  function AgentPaths(root: Path, agents: seq<Agent>): (r: seq<Path>)
    ensures |r| == |agents|
    ensures forall i :: 0 <= i < |agents| ==> r[i] == AgentPath(root, agents[i].id)
  {
    seq(|agents|, i requires 0 <= i < |agents| => AgentPath(root, agents[i].id))
  }

  lemma AgentPathsDistinct(root: Path, agents: seq<Agent>)
    requires Distinct(AgentIds(agents))
    ensures Distinct(AgentPaths(root, agents))
    ensures forall x :: x in AgentPaths(root, agents) ==> |x| == |root| + 3
  {
    var ps := AgentPaths(root, agents);
    forall i, j | 0 <= i < j < |ps|
      ensures ps[i] != ps[j]
    {
      if ps[i] == ps[j] {
        assert ps[i][|root| + 2] == ps[j][|root| + 2];
        SuffixInjective(agents[i].id, agents[j].id, ".md");
      }
    }
  }

  /** The paths written: the prompt, one file per agent, then the rest. */
  lemma WritePathsShape(root: Path, config: ProjectConfig, sanitizedName: string, analysis: AnalysisResult,
                        sections: seq<PromptGenerator.Section>, now: nat)
    ensures var names := FixedNames(IndexExtension(config));
      WritePaths(Writes(root, config, sanitizedName, analysis, sections, now))
        == Prefixed(root, names[..1]) + AgentPaths(root, analysis.requiredAgents) + Prefixed(root, names[1..])
  {
    var ws := Writes(root, config, sanitizedName, analysis, sections, now);
    var n := |analysis.requiredAgents|;
    var names := FixedNames(IndexExtension(config));
    var rhs := Prefixed(root, names[..1]) + AgentPaths(root, analysis.requiredAgents) + Prefixed(root, names[1..]);
    assert |WritePaths(ws)| == |rhs|;
    forall k | 0 <= k < |rhs|
      ensures WritePaths(ws)[k] == rhs[k]
    {
      if k == 0 {
      } else if k <= n {
        assert ws[k] == AgentWrite(root, analysis.requiredAgents[k - 1], now);
      } else {
        assert rhs[k] == root + names[k - n];
      }
    }
  }

  /**
   * No two writes go to the same file, provided the agents' ids are
   * distinct: the agent files differ by id and lie one level deeper than
   * any other file, and every other file has its own name.
   */
  lemma WritesDistinct(root: Path, config: ProjectConfig, sanitizedName: string, analysis: AnalysisResult,
                       sections: seq<PromptGenerator.Section>, now: nat)
    requires Distinct(AgentIds(analysis.requiredAgents))
    ensures Distinct(WritePaths(Writes(root, config, sanitizedName, analysis, sections, now)))
  {
    var names := FixedNames(IndexExtension(config));
    FixedNamesDistinct(IndexExtension(config));
    FixedPathsSplit(root, names);
    AgentPathsDistinct(root, analysis.requiredAgents);
    DistinctJoin(Prefixed(root, names[..1]), AgentPaths(root, analysis.requiredAgents), Prefixed(root, names[1..]));
    WritePathsShape(root, config, sanitizedName, analysis, sections, now);
  }

  /** The fixed files, split around the agent files, stay distinct and at most two levels below the root. */
  lemma FixedPathsSplit(root: Path, names: seq<Path>)
    requires Distinct(names) && names != []
    requires forall i :: 0 <= i < |names| ==> |names[i]| <= 2
    ensures Distinct(Prefixed(root, names[..1]) + Prefixed(root, names[1..]))
    ensures forall x :: x in Prefixed(root, names[..1]) ==> |x| <= |root| + 2
    ensures forall x :: x in Prefixed(root, names[1..]) ==> |x| <= |root| + 2
  {
    PrefixedDistinct(root, names);
    assert names == names[..1] + names[1..];
    assert Prefixed(root, names[..1]) + Prefixed(root, names[1..]) == Prefixed(root, names);
  }

  /**
   * Every agent of a roster has collaborators: the managing agent works
   * with all the others, and every other agent with the managing agent. So
   * no agent file of a generated project says "Works independently".
   */
  lemma NoAgentWorksIndependently(config: ProjectConfig, mcps: seq<McpServer>, now: nat)
    ensures var agents := Analysis.AnalysisFor(config, mcps).requiredAgents;
      forall i :: 0 <= i < |agents| ==>
        && agents[i].collaboratesWith != []
        && AgentDocOf(agents[i], now).collaborators == agents[i].collaboratesWith
  {
    var agents := Analysis.AnalysisFor(config, mcps).requiredAgents;
    Analysis.RosterManaging(config, McpIds(mcps), Analysis.AgentProfile);
    Analysis.RosterMembers(config, McpIds(mcps), Analysis.AgentProfile);
    assert AgentIds(agents)[1..] != [];
  }

  /** The six directories are distinct: the project directory and five below it, each with its own name. */
  lemma DirectoriesDistinct(root: Path)
    ensures |Directories(root)| == 6 && Distinct(Directories(root))
    ensures forall i :: 1 <= i < 6 ==> Directories(root)[i][..|root|] == root
  {
    var names: seq<Path> := [[], [".claude"], [".claude", "agents"], ["src"], ["docs"], ["tests"]];
    assert Distinct(names);
    PrefixedDistinct(root, names);
    assert root + [] == root;
    assert Prefixed(root, names) == Directories(root);
  }

  /**
   * After the checks: the handler succeeds iff the file system does; a
   * failing `mkdirSync` writes nothing, and a failing `writeFileSync` comes
   * after all six directories were made.
   */
  lemma ProduceCases(config: ProjectConfig, sanitizedName: string, analysis: AnalysisResult, now: nat, io: IoOutcome)
    ensures var h := Produce(config, sanitizedName, analysis, now, io);
      var root := ProjectPath(sanitizedName);
      && (h.response.Generated? <==> io == IoOk)
      && (io == MkdirThrows ==> h.response == ServerError(DirectoriesFailed) && h.directories == [] && h.writes == [])
      && (io == WriteThrows ==> h.response == ServerError(WritesFailed) && h.directories == Directories(root) && h.writes == [])
      && (io == IoOk ==> h.directories == Directories(root))
  {
  }

  /**
   * A successful response: the project lives in a folder named by the
   * sanitised name, its counts are the lengths of the roster, the MCP list
   * and the breakdown, and the prompt it returns is the one written first.
   * No two writes go to the same file; after the prompt comes one
   * definition file per agent, in roster order, under
   * `.claude/agents/<id>.md`; then the MCP configuration with one entry per
   * server; the entry point's extension follows the backend.
   */
  lemma ProducedFiles(config: ProjectConfig, sanitizedName: string, analysis: AnalysisResult, now: nat)
    requires Distinct(AgentIds(analysis.requiredAgents))
    ensures var h := Produce(config, sanitizedName, analysis, now, IoOk);
      var r := h.response;
      var root := ProjectPath(sanitizedName);
      var agents := analysis.requiredAgents;
      && r.projectPath == root && r.promptPath == PromptPath(root) && r.sanitizedName == sanitizedName
      && r.totals == Totals(|agents|, |analysis.recommendedMcps|, |analysis.taskBreakdown|)
      && Distinct(WritePaths(h.writes))
      && |h.writes| == 7 + |agents|
      && h.writes[0] == FileWrite(r.promptPath, PromptFile(r.prompt))
      && (forall i :: 0 <= i < |agents| ==>
            h.writes[1 + i] == FileWrite(AgentPath(root, agents[i].id), AgentFile(AgentDocOf(agents[i], now))))
      && h.writes[1 + |agents|] == FileWrite(root + [".claude", "mcp-config.json"], McpConfigFile(McpEntries(analysis.recommendedMcps)))
      && h.writes[5 + |agents|] == FileWrite(root + [".env.example"], EnvFile(EnvSectionsOf(config)))
      && h.writes[6 + |agents|] == FileWrite(root + ["src", "index" + IndexExtension(config)], IndexFile(IndexStubOf(config)))
  {
    var sections := PromptGenerator.PromptOf(analysis, now).markdown;
    WritesDistinct(ProjectPath(sanitizedName), config, sanitizedName, analysis, sections, now);
  }

  /**
   * The analysis a generated project is built from: one agent per
   * expected role, with distinct ids, so one agent file per role; as many
   * tasks as the configuration calls for.
   */
  lemma GeneratedAnalysis(config: ProjectConfig, mcps: seq<McpServer>)
    ensures var a := Analysis.AnalysisFor(config, mcps);
      && AgentIds(a.requiredAgents) == Analysis.ExpectedRoster(config)
      && Distinct(AgentIds(a.requiredAgents))
      && |a.recommendedMcps| == |mcps|
      && (var n := Analysis.NeedsOf(config);
          |a.taskBreakdown| == 3 + 2 * Analysis.Ind(n.data) + Analysis.Ind(n.backend) + Analysis.Ind(n.security)
                               + 2 * Analysis.Ind(n.frontend) + 2 * Analysis.Ind(n.qaAndDevOps))
  {
    Analysis.AnalysisShape(config, mcps);
    Analysis.ExpectedRosterSpec(config);
  }

  /** A word free of `p`, one character of `p` and a word that starts outside `p`: that character becomes `x`. */
  lemma JoinStep(a: string, sep: char, b: string, p: char -> bool, x: char)
    requires forall i :: 0 <= i < |a| ==> !p(a[i])
    requires p(sep) && b != [] && !p(b[0])
    ensures SquashRuns(a + ([sep] + b), p, x) == a + ([x] + SquashRuns(b, p, x))
  {
    SquashKeepPrefix(a, [sep] + b, p, x);
    SquashSingle(sep, b, p, x);
  }

  /** Three words free of `p`, separated by single characters of `p`, are joined by `x` instead. */
  lemma JoinWords(a: string, b: string, c: string, sep: char, p: char -> bool, x: char)
    requires forall i :: 0 <= i < |a| ==> !p(a[i])
    requires forall i :: 0 <= i < |b| ==> !p(b[i])
    requires forall i :: 0 <= i < |c| ==> !p(c[i])
    requires p(sep) && b != [] && c != []
    ensures SquashRuns(a + ([sep] + (b + ([sep] + c))), p, x) == a + ([x] + (b + ([x] + c)))
  {
    JoinStep(b, sep, c, p, x);
    SquashNone(c, p, x);
    JoinStep(a, sep, b + ([sep] + c), p, x);
  }

  lemma LowerExample()
    ensures LowerStr("Test API Project") == "test api project"
  {
  }

  lemma HyphenatedExample(name: string)
    requires name == "Test API Project"
    ensures FileStructure.Hyphenated(name) == "test" + (['-'] + ("api" + (['-'] + "project")))
  {
    var lowered := "test" + ([' '] + ("api" + ([' '] + "project")));
    assert LowerStr(name) == lowered by { LowerExample(); }
    FileStructure.RemoveInvalidKeeps(lowered);
    JoinWords("test", "api", "project", ' ', IsSpace, '-');
  }

  /** A name with capitals and spaces becomes a lower-case, hyphenated folder name. */
  lemma SanitizeExample(name: string)
    requires name == "Test API Project"
    ensures FileStructure.Sanitize(name) == "test-api-project"
  {
    var hyphenated := "test" + (['-'] + ("api" + (['-'] + "project")));
    HyphenatedExample(name);
    JoinWords("test", "api", "project", '-', IsHyphen, '-');
    JoinedExample();
  }

  lemma JoinedExample()
    ensures "test" + (['-'] + ("api" + (['-'] + "project"))) == "test-api-project"
    ensures forall i :: 0 <= i < |"test-api-project"| ==> !IsSpace("test-api-project"[i])
  {
  }
}
