/**
 * `ProjectCreator`: the orchestrator that analyses a configuration, renders
 * the prompt and lays out the paths of a new project under a base
 * directory. It sanitises names with its own, hyphenating variant of the
 * name sanitiser, and as written it never gets past the prompt step (see
 * `CreateProjectAsWritten`).
 */
module ProjectCreator {
  import opened Wrappers
  import opened Seqs
  import opened Strings
  import opened Types
  import opened ClaudeClient
  import Analysis
  import PromptGenerator
  import FileStructure

  // ---------------------------------------------------------------------
  // sanitizeProjectName, hyphenating variant
  // ---------------------------------------------------------------------

  /** `replace(/[^a-z0-9-]/g, '-')`: every character outside `[a-z0-9-]` becomes a hyphen. */
  function MapInvalid(s: string): (r: string)
    ensures |r| == |s|
    ensures forall i :: 0 <= i < |s| ==> NameChar(r[i])
    ensures forall i :: 0 <= i < |s| ==> (NameChar(s[i]) ==> r[i] == s[i]) && (!NameChar(s[i]) ==> r[i] == '-')
  {
    seq(|s|, i requires 0 <= i < |s| => if NameChar(s[i]) then s[i] else '-')
  }

  /**
   * `replace(/^-|-$/g, '')`: one leading and one trailing hyphen go. On the
   * one-character string "-" both alternatives would match the same
   * character; the first match consumes it and the result is empty, as here.
   */
  function StripEdgeHyphens(s: string): (r: string)
    ensures |r| <= |s|
  {
    var a := if s != [] && s[0] == '-' then s[1..] else s;
    if a != [] && a[|a| - 1] == '-' then a[..|a| - 1] else a
  }

  /** `sanitizeProjectName` of the creator: lower-case, hyphenate, squash, strip. */
  function HyphenateName(name: string): string {
    StripEdgeHyphens(SquashRuns(MapInvalid(LowerStr(name)), IsHyphen, '-'))
  }

  predicate HyphenatedShape(r: string) {
    && (forall i :: 0 <= i < |r| ==> NameChar(r[i]))
    && NoDoubled(r, '-')
    && (r == [] || (r[0] != '-' && r[|r| - 1] != '-'))
  }

  /** Squashing hyphen runs in a string of name characters keeps it one of name characters, without `--`. */
  lemma SquashedNameShape(s: string)
    requires forall i :: 0 <= i < |s| ==> NameChar(s[i])
    ensures var t := SquashRuns(s, IsHyphen, '-');
      (forall i :: 0 <= i < |t| ==> NameChar(t[i])) && NoDoubled(t, '-')
  {
    SquashClass(s, IsHyphen, '-', NameChar);
    SquashNoAdjacent(s, IsHyphen, '-');
  }

  /** Stripping the edges of such a string keeps both facts and leaves no hyphen at either end. */
  lemma StripShape(t: string)
    requires forall i :: 0 <= i < |t| ==> NameChar(t[i])
    requires NoDoubled(t, '-')
    ensures HyphenatedShape(StripEdgeHyphens(t))
  {
    var a := if t != [] && t[0] == '-' then t[1..] else t;
    assert forall i :: 0 <= i < |a| ==> NameChar(a[i]);
    assert NoDoubled(a, '-');
    assert a != [] && t != [] && t[0] == '-' ==> a[0] != '-' by {
      if a != [] && t != [] && t[0] == '-' {
        assert a[0] == t[1];
      }
    }
    var r := StripEdgeHyphens(t);
    if a != [] && a[|a| - 1] == '-' {
      assert r == a[..|a| - 1];
      if |a| >= 2 {
        assert a[|a| - 2] != '-';
      }
    }
  }

  /** The result holds only `[a-z0-9-]`, never `--`, and no hyphen at either end. */
  lemma HyphenateShape(name: string)
    ensures HyphenatedShape(HyphenateName(name))
  {
    var m := MapInvalid(LowerStr(name));
    SquashedNameShape(m);
    StripShape(SquashRuns(m, IsHyphen, '-'));
  }

  /** A string of that shape is left as it is. */
  lemma HyphenateFixpoint(r: string)
    requires HyphenatedShape(r)
    ensures HyphenateName(r) == r
  {
    assert LowerStr(r) == r;
    assert MapInvalid(r) == r;
    SquashIdentity(r, IsHyphen, '-');
  }

  /** Unlike the remove-invalid variant, this sanitiser is idempotent on every input. */
  lemma HyphenateIdempotent(name: string)
    ensures HyphenateName(HyphenateName(name)) == HyphenateName(name)
  {
    HyphenateShape(name);
    HyphenateFixpoint(HyphenateName(name));
  }

  lemma HyphenateDotExample()
    ensures HyphenateName("a.b") == "a-b"
  {
    assert LowerStr("a.b") == "a.b";
    assert MapInvalid("a.b") == "a-b";
    SquashIdentity("a-b", IsHyphen, '-');
  }

  lemma RemoveDotExample()
    ensures FileStructure.SanitizeProjectName("a.b") == "ab"
  {
    var ab := "ab";
    assert FileStructure.RemoveInvalid(LowerStr("a.b")) == ab by {
      assert LowerStr("a.b") == "a.b";
      assert !FileStructure.Kept('.');
    }
    assert forall i :: 0 <= i < |ab| ==> NameChar(ab[i]);
    FileStructure.SanitizeFixpoint(ab);
    assert FileStructure.SanitizeProjectName("a.b") == FileStructure.Sanitize(ab);
  }

  /** The two sanitisers disagree: a dot becomes a hyphen here and disappears in the preview tree. */
  lemma SanitisersDiffer()
    ensures HyphenateName("a.b") == "a-b" != FileStructure.SanitizeProjectName("a.b")
  {
    HyphenateDotExample();
    RemoveDotExample();
  }

  // ---------------------------------------------------------------------
  // Paths
  // ---------------------------------------------------------------------

  /** `path.join` on already clean parts: the parts separated by `/`. */
  function JoinPath(parts: seq<string>): string {
    Join(parts, "/")
  }

  function AgentPath(projectPath: string, id: string): (r: string)
    ensures r == projectPath + "/.claude/agents/" + id + ".md"
  {
    JoinPath([projectPath, ".claude", "agents", id + ".md"])
  }

  /** Different agent ids give different paths under one project. */
  lemma AgentPathInjective(projectPath: string, a: string, b: string)
    requires AgentPath(projectPath, a) == AgentPath(projectPath, b)
    ensures a == b
  {
    var p := projectPath + "/.claude/agents/";
    var x := AgentPath(projectPath, a);
    assert |a| == |b|;
    assert x[|p|..|p| + |a|] == a;
    assert AgentPath(projectPath, b)[|p|..|p| + |b|] == b;
  }

  /** The platform default of the base directory. */
  function DefaultProjectPath(isWindows: bool): string {
    if isWindows then "E:\\root\\apps\\projects" else "/root/apps/projects"
  }

  /** The outcome record of `createProject`; `githubUrl` is never set. */
  datatype CreateResult = CreateResult(
    success: bool,
    projectPath: string,
    promptPath: string,
    githubUrl: Option<string>,
    error: Option<string>)

  /** One entry of the generated MCP configuration. */
  datatype McpEntry = McpEntry(id: string, name: string, enabled: bool, required: bool)

  /** `mcps.map(...)` of `createMCPConfig`: enabled, and required only when the server says so. */
  function McpEntries(mcps: seq<McpServer>): (r: seq<McpEntry>)
    ensures |r| == |mcps|
    ensures forall i :: 0 <= i < |mcps| ==> r[i].id == mcps[i].id && r[i].name == mcps[i].name && r[i].enabled
  {
    seq(|mcps|, i requires 0 <= i < |mcps| => McpEntry(mcps[i].id, mcps[i].name, true, mcps[i].required.GetOr(false)))
  }

  /** `mcp.required || false`: an absent flag reads as false. */
  lemma McpEntryRequired(mcps: seq<McpServer>, i: nat)
    requires i < |mcps|
    ensures McpEntries(mcps)[i].required <==> mcps[i].required == Some(true)
  {
  }

  /** The seven directories every project gets. */
  const BaseDirectories: seq<string> :=
    [".claude", ".claude/agents", "src", "docs", "tests", ".github", ".github/workflows"]

  /** The directories added by project type; any other type adds none. */
  function TypeDirectories(projectType: string): seq<string> {
    if projectType == "saas" || projectType == "website" then ["src/components", "src/pages", "src/lib", "public"]
    else if projectType == "api" then ["src/routes", "src/middleware", "src/models"]
    else if projectType == "cli-tool" then ["src/commands", "src/utils"]
    else []
  }

  /** No directory is listed twice: the type-specific ones all lie under `src/` or are `public`. */
  lemma TypeDirectoriesFresh(projectType: string)
    ensures Distinct(BaseDirectories + TypeDirectories(projectType))
  {
  }

  /** Only saas, website, api and cli-tool add directories. */
  lemma TypeDirectoriesCount(projectType: string)
    ensures |TypeDirectories(projectType)| == (
      if projectType == "saas" || projectType == "website" then 4
      else if projectType == "api" then 3
      else if projectType == "cli-tool" then 2
      else 0)
  {
  }

  /** V8's message for reading `name` of `undefined`. */
  const UndefinedNameRead := "Cannot read properties of undefined (reading 'name')"

  /** The catch branch of `createProject`. */
  function Failure(message: string): (r: CreateResult)
    ensures !r.success && r.projectPath == "" && r.promptPath == "" && r.error == Some(message)
  {
    CreateResult(false, "", "", None, Some(message))
  }

  class Creator {
    const baseProjectPath: string

    /** `CLAUDE_PROJECTS_PATH` when set and non-empty, else the platform default. */
    constructor(projectsPathEnv: Option<string>, isWindows: bool)
      ensures baseProjectPath == (if Truthy(projectsPathEnv) then projectsPathEnv.value else DefaultProjectPath(isWindows))
    {
      baseProjectPath := OrElse(projectsPathEnv, Some(DefaultProjectPath(isWindows))).value;
    }

    /** `createAgentFiles`: one path per agent, in roster order. */
    method CreateAgentFiles(projectPath: string, agents: seq<Agent>) returns (paths: seq<string>)
      ensures |paths| == |agents|
      ensures forall i :: 0 <= i < |agents| ==> paths[i] == AgentPath(projectPath, agents[i].id)
    {
      paths := [];
      for i := 0 to |agents|
        invariant |paths| == i
        invariant forall k :: 0 <= k < i ==> paths[k] == AgentPath(projectPath, agents[k].id)
      {
        paths := paths + [AgentPath(projectPath, agents[i].id)];
      }
    }

    /** `createMCPConfig`: the entries are built, only the path is returned. */
    method CreateMcpConfig(projectPath: string, mcps: seq<McpServer>) returns (configPath: string)
      ensures configPath == JoinPath([projectPath, ".claude", "mcp-config.json"])
    {
      configPath := JoinPath([projectPath, ".claude", "mcp-config.json"]);
      var entries := McpEntries(mcps);
    }

    /** `createProjectStructure`: the base directories, then the switch on the type. */
    method CreateProjectStructure(projectPath: string, config: ProjectConfig) returns (directories: seq<string>)
      ensures directories == BaseDirectories + TypeDirectories(config.projectType)
    {
      directories := BaseDirectories;
      var t := config.projectType;
      if t == "saas" || t == "website" {
        directories := directories + ["src/components", "src/pages", "src/lib", "public"];
      } else if t == "api" {
        directories := directories + ["src/routes", "src/middleware", "src/models"];
      } else if t == "cli-tool" {
        directories := directories + ["src/commands", "src/utils"];
      }
    }

    /**
     * `createProject` as written: `analyze` is not awaited, so `generate`
     * receives the promise, reads `analysis.project.name` off `undefined` and
     * throws a TypeError, which the catch turns into a failure.
     */
    method CreateProjectAsWritten(config: ProjectConfig) returns (result: CreateResult)
      ensures result == Failure(UndefinedNameRead)
    {
      result := Failure(UndefinedNameRead);
    }

    /** Steps 1 and 2 of `createProject`, the analysis awaited. */
    method AnalyzeAndRender(config: ProjectConfig, outcome: RecommendOutcome, now: nat)
      returns (analysis: AnalysisResult, prompt: PromptGenerator.GeneratedPrompt)
      ensures analysis.project == config
      ensures prompt.metadata.totalAgents == |analysis.requiredAgents|
      ensures prompt.metadata.projectName == config.name
    {
      analysis := Analysis.Analyze(config, outcome);
      prompt := PromptGenerator.Generate(analysis, now);
    }

    /**
     * `createProject` with the analysis awaited: analyse, render the prompt,
     * lay out the agent files, the MCP configuration and the directories,
     * and report the project and prompt paths. `outcome` is the answer of
     * the recommendation call and `now` the clock.
     */
    method CreateProject(config: ProjectConfig, outcome: RecommendOutcome, now: nat) returns (result: CreateResult)
      ensures result.success && result.githubUrl.None? && result.error.None?
      ensures result.projectPath == JoinPath([baseProjectPath, HyphenateName(config.name)])
      ensures result.promptPath == JoinPath([result.projectPath, ".claude", "PROJECT_PROMPT.md"])
    {
      var analysis, prompt := AnalyzeAndRender(config, outcome, now);
      var projectPath := JoinPath([baseProjectPath, HyphenateName(config.name)]);
      var promptPath := JoinPath([projectPath, ".claude", "PROJECT_PROMPT.md"]);
      var agentPaths := CreateAgentFiles(projectPath, analysis.requiredAgents);
      var mcpConfigPath := CreateMcpConfig(projectPath, analysis.recommendedMcps);
      var directories := CreateProjectStructure(projectPath, config);
      result := CreateResult(true, projectPath, promptPath, None, None);
    }
  }

  /** Distinct agent ids give distinct agent file paths. */
  lemma AgentPathsDistinct(projectPath: string, agents: seq<Agent>, paths: seq<string>)
    requires |paths| == |agents|
    requires forall i :: 0 <= i < |agents| ==> paths[i] == AgentPath(projectPath, agents[i].id)
    requires Distinct(AgentIds(agents))
    ensures Distinct(paths)
  {
    forall i, j | 0 <= i < j < |paths|
      ensures paths[i] != paths[j]
    {
      if paths[i] == paths[j] {
        AgentPathInjective(projectPath, agents[i].id, agents[j].id);
      }
    }
  }
}
