/**
 * `fileStructureGenerator`: the project preview tree. The name sanitiser
 * that removes invalid characters, the root node list, the source folder,
 * one definition file per agent, the `.env.example` blocks and the services
 * of `docker-compose.yml`. File contents are represented by what they are
 * generated from; their literal text is not modelled.
 */
module FileStructure {
  import opened Wrappers
  import opened Seqs
  import opened Strings
  import opened Types

  // ---------------------------------------------------------------------
  // sanitizeProjectName (characters removed)
  // ---------------------------------------------------------------------

  /** What `/[^a-z0-9-\s]/g` keeps. */
  predicate Kept(c: char) { IsLowerAlnum(c) || c == '-' || IsSpace(c) }

  /** `replace(/[^a-z0-9-\s]/g, '')`: drops every character outside lower-case letters, digits, `-` and whitespace. */
  function RemoveInvalid(s: string): (r: string)
    ensures |r| <= |s|
    ensures forall i :: 0 <= i < |r| ==> Kept(r[i])
    decreases |s|
  {
    if s == [] then []
    else (if Kept(s[0]) then [s[0]] else []) + RemoveInvalid(s[1..])
  }

  lemma {:induction false} RemoveInvalidKeeps(s: string)
    requires forall i :: 0 <= i < |s| ==> Kept(s[i])
    ensures RemoveInvalid(s) == s
    decreases |s|
  {
    if s != [] {
      RemoveInvalidKeeps(s[1..]);
    }
  }

  /** `.toLowerCase().replace(/[^a-z0-9-\s]/g, '').replace(/\s+/g, '-').replace(/-+/g, '-').trim()`. */
  function Sanitize(base: string): string {
    Trim(Squashed(base))
  }

  /** The characters kept from the name, with the whitespace runs squashed. */
  function Hyphenated(base: string): string {
    SquashRuns(RemoveInvalid(LowerStr(base)), IsSpace, '-')
  }

  /** Then with the hyphen runs squashed. */
  function Squashed(base: string): string {
    SquashRuns(Hyphenated(base), IsHyphen, '-')
  }

  /** `sanitizeProjectName`: an empty name stands for `project`. */
  function SanitizeProjectName(name: string): string {
    Sanitize(if name == "" then "project" else name)
  }

  lemma HyphenatedChars(base: string)
    ensures forall i :: 0 <= i < |Hyphenated(base)| ==> NameChar(Hyphenated(base)[i])
  {
    SquashClass(RemoveInvalid(LowerStr(base)), IsSpace, '-', NameChar);
  }

  lemma SquashedShape(base: string)
    ensures var r := Squashed(base);
      && (forall i :: 0 <= i < |r| ==> NameChar(r[i]))
      && NoDoubled(r, '-')
  {
    var h := Hyphenated(base);
    var r := Squashed(base);
    assert r == SquashRuns(h, IsHyphen, '-');
    HyphenatedChars(base);
    SquashClass(h, IsHyphen, '-', NameChar);
    assert forall i :: 0 <= i < |r| ==> NameChar(r[i]);
    SquashNoAdjacent(h, IsHyphen, '-');
  }

  /** A sanitised name is made of lower-case letters, digits and hyphens, and never holds two hyphens in a row. */
  lemma SanitizeShape(base: string)
    ensures var r := Sanitize(base);
      && (forall i :: 0 <= i < |r| ==> NameChar(r[i]))
      && NoDoubled(r, '-')
  {
    SquashedShape(base);
    NameTrim(Squashed(base));
  }

  /** Sanitising leaves a non-empty string of name characters with no doubled hyphen as it is. */
  lemma SquashedFixpoint(s: string)
    requires forall i :: 0 <= i < |s| ==> NameChar(s[i])
    requires NoDoubled(s, '-')
    ensures Squashed(s) == s
  {
    assert LowerStr(s) == s;
    RemoveInvalidKeeps(s);
    SquashNone(s, IsSpace, '-');
    SquashIdentity(s, IsHyphen, '-');
  }

  /** A non-empty string of name characters with no doubled hyphen is its own sanitised form. */
  lemma SanitizeFixpoint(s: string)
    requires s != []
    requires forall i :: 0 <= i < |s| ==> NameChar(s[i])
    requires NoDoubled(s, '-')
    ensures Sanitize(s) == s
  {
    SquashedFixpoint(s);
    NameTrim(s);
  }

  /** A non-empty sanitised name is left as it is by a second pass. */
  lemma SanitizeIdempotent(name: string)
    requires SanitizeProjectName(name) != ""
    ensures SanitizeProjectName(SanitizeProjectName(name)) == SanitizeProjectName(name)
  {
    var r := SanitizeProjectName(name);
    SanitizeShape(if name == "" then "project" else name);
    SanitizeFixpoint(r);
    assert SanitizeProjectName(r) == Sanitize(r);
  }

  /** An empty name becomes `project`. */
  lemma SanitizeEmpty()
    ensures SanitizeProjectName("") == "project"
  {
    var s := "project";
    assert forall i :: 0 <= i < |s| ==> NameChar(s[i]);
    SanitizeFixpoint(s);
    assert SanitizeProjectName("") == Sanitize(s);
  }

  /**
   * A name made only of removed characters sanitises to the empty string,
   * which a second pass turns into `project`: the sanitiser is idempotent
   * only on non-empty results.
   */
  lemma SanitizeNotIdempotentOnEmpty()
    ensures SanitizeProjectName("!!!") == ""
    ensures SanitizeProjectName(SanitizeProjectName("!!!")) == "project"
  {
    var s := "!!!";
    assert RemoveInvalid(LowerStr(s)) == [] by {
      assert LowerStr(s) == s;
      assert !Kept('!');
      assert s[1..][1..][1..] == [];
    }
    SanitizeEmpty();
  }

  // ---------------------------------------------------------------------
  // The tree
  // ---------------------------------------------------------------------

  datatype NodeKind = File | Folder

  /** Which of the project types get Docker files and which source folders. */
  predicate Dockerised(projectType: string) { projectType == "microservice" || projectType == "api" }

  predicate HasServerFolders(projectType: string) {
    projectType == "api" || projectType == "saas" || projectType == "webapp"
  }

  predicate HasUiFolders(projectType: string) {
    projectType == "website" || projectType == "webapp" || projectType == "saas"
  }

  /** `techStack.backend?.includes('TypeScript') || techStack.frontend?.includes('TypeScript')`. */
  predicate UsesTypeScript(config: ProjectConfig) {
    Includes(config.techStack.backend, "TypeScript") || Includes(config.techStack.frontend, "TypeScript")
  }

  /** The optional blocks of `.env.example`, in the order they are appended. */
  datatype EnvBlock = General | DatabaseVars | AuthVars | EmailVars | PaymentVars | StorageVars | AnalyticsVars

  datatype Service = App | Postgres | MongoDb | Redis

  /** `docker-compose.yml`: the services in insertion order and the named volumes. */
  datatype Compose = Compose(services: seq<Service>, volumes: seq<string>)

  /** A generated file's content, by what it is generated from. */
  datatype Content =
    | PromptPlaceholder
    | McpConfigJson(mcps: seq<McpServer>)
    | AgentDoc(name: string, role: string, responsibilities: seq<string>)
    | IndexSource(projectName: string, apiServer: bool, typeScript: bool)
    | ReadmeDoc(config: ProjectConfig)
    | PackageJson(packageName: string, description: string, keywords: seq<string>)
    | Gitignore
    | EnvExample(blocks: seq<EnvBlock>)
    | TsConfig
    | Dockerfile
    | DockerCompose(compose: Compose)

  datatype FileNode = FileNode(name: string, kind: NodeKind, description: string, content: Option<Content>, children: seq<FileNode>)

  function FileOf(name: string, description: string, content: Content): FileNode {
    FileNode(name, File, description, Some(content), [])
  }

  function FolderOf(name: string, description: string, children: seq<FileNode>): FileNode {
    FileNode(name, Folder, description, None, children)
  }

  function Names(nodes: seq<FileNode>): (r: seq<string>)
    ensures |r| == |nodes|
    ensures forall i :: 0 <= i < |nodes| ==> r[i] == nodes[i].name
  {
    seq(|nodes|, i requires 0 <= i < |nodes| => nodes[i].name)
  }

  lemma NamesAppend(a: seq<FileNode>, b: seq<FileNode>)
    ensures Names(a + b) == Names(a) + Names(b)
  {
  }

  // ---------------------------------------------------------------------
  // Agent files
  // ---------------------------------------------------------------------

  /** `generateAgentFiles`: one `<id>.md` per agent, in roster order. */
  function AgentFiles(agents: seq<Agent>): (r: seq<FileNode>)
    ensures |r| == |agents|
    ensures forall i :: 0 <= i < |r| ==> r[i].name == agents[i].id + ".md" && r[i].kind == File
  {
    seq(|agents|, i requires 0 <= i < |agents| =>
      FileOf(agents[i].id + ".md", agents[i].role,
             AgentDoc(agents[i].name, agents[i].role, agents[i].responsibilities)))
  }

  // ---------------------------------------------------------------------
  // Source files
  // ---------------------------------------------------------------------

  const ServerFolders: seq<string> := ["routes", "controllers", "models", "services", "utils"]
  const UiFolders: seq<string> := ["components", "styles"]

  function IndexName(typeScript: bool): string {
    if typeScript then "index.ts" else "index.js"
  }

  function ServerFolderNodes(): (r: seq<FileNode>)
    ensures Names(r) == ServerFolders
  {
    [FolderOf("routes", "API routes", []), FolderOf("controllers", "Request handlers", []),
     FolderOf("models", "Data models", []), FolderOf("services", "Business logic", []),
     FolderOf("utils", "Utility functions", [])]
  }

  function UiFolderNodes(): (r: seq<FileNode>)
    ensures Names(r) == UiFolders
  {
    [FolderOf("components", "UI components", []), FolderOf("styles", "CSS/SCSS files", [])]
  }

  function IndexNode(config: ProjectConfig): FileNode {
    FileOf(IndexName(UsesTypeScript(config)), "Main entry point",
           IndexSource(config.name, Dockerised(config.projectType), UsesTypeScript(config)))
  }

  /** The source folder's entries. */
  function SourceFiles(config: ProjectConfig): seq<FileNode> {
    [IndexNode(config)]
    + (if HasServerFolders(config.projectType) then ServerFolderNodes() else [])
    + (if HasUiFolders(config.projectType) then UiFolderNodes() else [])
  }

  /**
   * The entry point comes first, `.ts` exactly when TypeScript is used; the
   * server folders follow for api, saas and webapp, the UI folders for
   * website, webapp and saas.
   */
  lemma SourceFileNames(config: ProjectConfig)
    ensures Names(SourceFiles(config))
      == [IndexName(UsesTypeScript(config))]
       + (if HasServerFolders(config.projectType) then ServerFolders else [])
       + (if HasUiFolders(config.projectType) then UiFolders else [])
    ensures SourceFiles(config)[0].name == "index.ts" <==> UsesTypeScript(config)
  {
    var t := config.projectType;
    var a := [IndexNode(config)];
    var b := if HasServerFolders(t) then ServerFolderNodes() else [];
    var c := if HasUiFolders(t) then UiFolderNodes() else [];
    assert Names(a + b + c) == Names(a) + Names(b) + Names(c);
  }

  /** `generateSourceFiles`: the entry point, then the folders the type calls for. */
  method GenerateSourceFiles(config: ProjectConfig) returns (files: seq<FileNode>)
    ensures files == SourceFiles(config)
  {
    var useTypeScript := UsesTypeScript(config);
    files := [IndexNode(config)];
    if config.projectType == "api" || config.projectType == "saas" || config.projectType == "webapp" {
      files := files + ServerFolderNodes();
    }
    if config.projectType == "website" || config.projectType == "webapp" || config.projectType == "saas" {
      files := files + UiFolderNodes();
    }
  }

  // ---------------------------------------------------------------------
  // .env.example
  // ---------------------------------------------------------------------

  /** The feature category an optional block answers to. */
  function BlockCategory(b: EnvBlock): string {
    match b
    case General => ""
    case DatabaseVars => "database"
    case AuthVars => "authentication"
    case EmailVars => "email"
    case PaymentVars => "payments"
    case StorageVars => "storage"
    case AnalyticsVars => "analytics"
  }

  /** A block's position in the file. */
  function Rank(b: EnvBlock): nat {
    match b
    case General => 0
    case DatabaseVars => 1
    case AuthVars => 2
    case EmailVars => 3
    case PaymentVars => 4
    case StorageVars => 5
    case AnalyticsVars => 6
  }

  function Opt<T>(b: bool, x: T): (r: seq<T>)
    ensures b ==> r == [x]
    ensures !b ==> r == []
  {
    if b then [x] else []
  }

  /** Whether some feature asks for block `b`. */
  predicate Wanted(config: ProjectConfig, b: EnvBlock) {
    HasFeatureCategory(config, BlockCategory(b))
  }

  /** The blocks of `.env.example`: always `General`, then each optional block whose category some feature has. */
  function EnvBlocks(config: ProjectConfig): seq<EnvBlock> {
    [General]
    + Opt(Wanted(config, DatabaseVars), DatabaseVars) + Opt(Wanted(config, AuthVars), AuthVars)
    + Opt(Wanted(config, EmailVars), EmailVars) + Opt(Wanted(config, PaymentVars), PaymentVars)
    + Opt(Wanted(config, StorageVars), StorageVars) + Opt(Wanted(config, AnalyticsVars), AnalyticsVars)
  }

  predicate RankIncreasing(s: seq<EnvBlock>) {
    forall i, j :: 0 <= i < j < |s| ==> Rank(s[i]) < Rank(s[j])
  }

  lemma AppendRanked(s: seq<EnvBlock>, present: bool, x: EnvBlock)
    requires RankIncreasing(s)
    requires forall i :: 0 <= i < |s| ==> Rank(s[i]) < Rank(x)
    ensures RankIncreasing(s + Opt(present, x))
    ensures forall i :: 0 <= i < |s + Opt(present, x)| ==> Rank((s + Opt(present, x))[i]) <= Rank(x)
  {
  }

  /** `generateEnvExample`: the General block, then one `+=` per category present. */
  method GenerateEnvExample(config: ProjectConfig) returns (blocks: seq<EnvBlock>)
    ensures blocks == EnvBlocks(config)
  {
    blocks := [General];
    ghost var spec: seq<EnvBlock> := [General];
    assert BlockCategory(DatabaseVars) == "database" && BlockCategory(AuthVars) == "authentication"
      && BlockCategory(EmailVars) == "email" && BlockCategory(PaymentVars) == "payments"
      && BlockCategory(StorageVars) == "storage" && BlockCategory(AnalyticsVars) == "analytics";
    if HasFeatureCategory(config, "database") {
      blocks := blocks + [DatabaseVars];
    }
    spec := spec + Opt(Wanted(config, DatabaseVars), DatabaseVars);
    assert blocks == spec;
    if HasFeatureCategory(config, "authentication") {
      blocks := blocks + [AuthVars];
    }
    spec := spec + Opt(Wanted(config, AuthVars), AuthVars);
    assert blocks == spec;
    if HasFeatureCategory(config, "email") {
      blocks := blocks + [EmailVars];
    }
    spec := spec + Opt(Wanted(config, EmailVars), EmailVars);
    assert blocks == spec;
    if HasFeatureCategory(config, "payments") {
      blocks := blocks + [PaymentVars];
    }
    spec := spec + Opt(Wanted(config, PaymentVars), PaymentVars);
    assert blocks == spec;
    if HasFeatureCategory(config, "storage") {
      blocks := blocks + [StorageVars];
    }
    spec := spec + Opt(Wanted(config, StorageVars), StorageVars);
    assert blocks == spec;
    if HasFeatureCategory(config, "analytics") {
      blocks := blocks + [AnalyticsVars];
    }
    spec := spec + Opt(Wanted(config, AnalyticsVars), AnalyticsVars);
    assert blocks == spec;
  }

  lemma AppendMember(s: seq<EnvBlock>, w: bool, x: EnvBlock, b: EnvBlock)
    ensures b in s + Opt(w, x) <==> b in s || (w && b == x)
  {
  }

  /** An optional block is in the file iff some feature has its category. */
  lemma EnvBlocksMember(config: ProjectConfig, b: EnvBlock)
    requires b != General
    ensures b in EnvBlocks(config) <==> HasFeatureCategory(config, BlockCategory(b))
  {
    var s0: seq<EnvBlock> := [General];
    var s1 := s0 + Opt(Wanted(config, DatabaseVars), DatabaseVars);
    var s2 := s1 + Opt(Wanted(config, AuthVars), AuthVars);
    var s3 := s2 + Opt(Wanted(config, EmailVars), EmailVars);
    var s4 := s3 + Opt(Wanted(config, PaymentVars), PaymentVars);
    var s5 := s4 + Opt(Wanted(config, StorageVars), StorageVars);
    AppendMember(s0, Wanted(config, DatabaseVars), DatabaseVars, b);
    AppendMember(s1, Wanted(config, AuthVars), AuthVars, b);
    AppendMember(s2, Wanted(config, EmailVars), EmailVars, b);
    AppendMember(s3, Wanted(config, PaymentVars), PaymentVars, b);
    AppendMember(s4, Wanted(config, StorageVars), StorageVars, b);
    AppendMember(s5, Wanted(config, AnalyticsVars), AnalyticsVars, b);
  }

  /** `General` comes first and the blocks keep their fixed order, so none is repeated. */
  lemma EnvBlocksOrdered(config: ProjectConfig)
    ensures EnvBlocks(config)[0] == General
    ensures RankIncreasing(EnvBlocks(config))
  {
    var s0: seq<EnvBlock> := [General];
    var s1 := s0 + Opt(Wanted(config, DatabaseVars), DatabaseVars);
    var s2 := s1 + Opt(Wanted(config, AuthVars), AuthVars);
    var s3 := s2 + Opt(Wanted(config, EmailVars), EmailVars);
    var s4 := s3 + Opt(Wanted(config, PaymentVars), PaymentVars);
    var s5 := s4 + Opt(Wanted(config, StorageVars), StorageVars);
    AppendRanked(s0, Wanted(config, DatabaseVars), DatabaseVars);
    AppendRanked(s1, Wanted(config, AuthVars), AuthVars);
    AppendRanked(s2, Wanted(config, EmailVars), EmailVars);
    AppendRanked(s3, Wanted(config, PaymentVars), PaymentVars);
    AppendRanked(s4, Wanted(config, StorageVars), StorageVars);
    AppendRanked(s5, Wanted(config, AnalyticsVars), AnalyticsVars);
  }

  // ---------------------------------------------------------------------
  // docker-compose.yml
  // ---------------------------------------------------------------------

  /** The compose file for a configuration. */
  function ComposeOf(config: ProjectConfig): Compose {
    var db := HasFeatureCategory(config, "database");
    var postgres := db && Includes(config.techStack.database, "PostgreSQL");
    var mongo := db && !postgres && Includes(config.techStack.database, "MongoDB");
    var redis := config.projectType == "saas" || config.projectType == "api";
    Compose([App] + Opt(postgres, Postgres) + Opt(mongo, MongoDb) + Opt(redis, Redis),
            Opt(postgres, "postgres_data") + Opt(mongo, "mongo_data"))
  }

  /**
   * `app` is always first; postgres when a database feature is selected and
   * PostgreSQL is listed, otherwise mongodb when MongoDB is listed; redis for
   * saas and api; a volume for each database service and no other.
   */
  lemma ComposeSpec(config: ProjectConfig)
    ensures var c := ComposeOf(config);
      && c.services[0] == App
      && (Postgres in c.services <==>
           HasFeatureCategory(config, "database") && Includes(config.techStack.database, "PostgreSQL"))
      && (MongoDb in c.services <==>
           HasFeatureCategory(config, "database") && !Includes(config.techStack.database, "PostgreSQL")
           && Includes(config.techStack.database, "MongoDB"))
      && (Redis in c.services <==> config.projectType == "saas" || config.projectType == "api")
      && !(Postgres in c.services && MongoDb in c.services)
      && ("postgres_data" in c.volumes <==> Postgres in c.services)
      && ("mongo_data" in c.volumes <==> MongoDb in c.services)
      && |c.volumes| <= 1
  {
  }

  /** `generateDockerCompose`: `app`, then the database service, then redis, then the volumes. */
  method GenerateDockerCompose(config: ProjectConfig) returns (compose: Compose)
    ensures compose == ComposeOf(config)
  {
    var services: seq<Service> := [App];
    if HasFeatureCategory(config, "database") {
      if Includes(config.techStack.database, "PostgreSQL") {
        services := services + [Postgres];
      } else if Includes(config.techStack.database, "MongoDB") {
        services := services + [MongoDb];
      }
    }
    if config.projectType == "saas" || config.projectType == "api" {
      services := services + [Redis];
    }
    var volumes: seq<string> := [];
    if Postgres in services {
      volumes := volumes + ["postgres_data"];
    }
    if MongoDb in services {
      volumes := volumes + ["mongo_data"];
    }
    compose := Compose(services, volumes);
  }

  // ---------------------------------------------------------------------
  // generateFileStructure
  // ---------------------------------------------------------------------

  /** The eight nodes every project has, in order. */
  const RootNames: seq<string> :=
    [".claude", "src", "docs", "tests", "README.md", "package.json", ".gitignore", ".env.example"]

  function ClaudeFolder(analysis: Option<AnalysisResult>): FileNode {
    var mcps := if analysis.Some? then analysis.value.recommendedMcps else [];
    var agents := if analysis.Some? then analysis.value.requiredAgents else [];
    FolderOf(RootNames[0], "Claude Code configuration", [
      FileOf("PROJECT_PROMPT.md", "Main project prompt", PromptPlaceholder),
      FileOf("mcp-config.json", "MCP server configuration", McpConfigJson(mcps)),
      FolderOf("agents", "AI agent definitions", AgentFiles(agents))])
  }

  /** The eight fixed nodes, around the parts computed from the configuration and the analysis. */
  function FixedNodes(claude: FileNode, sourceFiles: seq<FileNode>, config: ProjectConfig,
                      packageName: string, envBlocks: seq<EnvBlock>): (r: seq<FileNode>)
    requires claude.name == RootNames[0]
    ensures Names(r) == RootNames
  {
    [claude,
     FolderOf(RootNames[1], "Source code", sourceFiles),
     FolderOf(RootNames[2], "Documentation", []),
     FolderOf(RootNames[3], "Test files", []),
     FileOf(RootNames[4], "Project overview", ReadmeDoc(config)),
     FileOf(RootNames[5], "NPM configuration", PackageJson(packageName, config.description, [config.projectType])),
     FileOf(RootNames[6], "Git ignore rules", Gitignore),
     FileOf(RootNames[7], "Environment variables template", EnvExample(envBlocks))]
  }

  const TsConfigName := "tsconfig.json"
  const DockerNames: seq<string> := ["Dockerfile", "docker-compose.yml"]

  function TsConfigNode(): FileNode { FileOf(TsConfigName, "TypeScript configuration", TsConfig) }

  function DockerNodes(compose: Compose): (r: seq<FileNode>)
    ensures Names(r) == DockerNames
  {
    [FileOf(DockerNames[0], "Docker container configuration", Dockerfile),
     FileOf(DockerNames[1], "Docker Compose configuration", DockerCompose(compose))]
  }

  /** The preview tree for a configuration and, when there is one, its analysis. */
  function FileStructureOf(config: ProjectConfig, analysis: Option<AnalysisResult>): seq<FileNode> {
    Assemble(FixedNodes(ClaudeFolder(analysis), SourceFiles(config), config, SanitizeProjectName(config.name), EnvBlocks(config)),
             UsesTypeScript(config), Dockerised(config.projectType), DockerNodes(ComposeOf(config)))
  }

  /** The fixed nodes, `tsconfig.json` when `ts`, the Docker files when `docker`. */
  function Assemble(fixed: seq<FileNode>, ts: bool, docker: bool, dockerNodes: seq<FileNode>): seq<FileNode> {
    var withTs := if ts then fixed + [TsConfigNode()] else fixed;
    if docker then withTs + dockerNodes else withTs
  }

  /**
   * The eight fixed nodes, then `tsconfig.json` iff TypeScript is used, then
   * the Docker files iff the type is api or microservice.
   */
  lemma FileStructureNames(config: ProjectConfig, analysis: Option<AnalysisResult>)
    ensures Names(FileStructureOf(config, analysis))
      == RootNames
       + (if UsesTypeScript(config) then [TsConfigName] else [])
       + (if Dockerised(config.projectType) then DockerNames else [])
  {
    var a := FixedNodes(ClaudeFolder(analysis), SourceFiles(config), config,
                        SanitizeProjectName(config.name), EnvBlocks(config));
    AssembledNames(a, UsesTypeScript(config), Dockerised(config.projectType), DockerNodes(ComposeOf(config)));
  }

  lemma AssembledNames(a: seq<FileNode>, ts: bool, docker: bool, dockerNodes: seq<FileNode>)
    requires Names(a) == RootNames && Names(dockerNodes) == DockerNames
    ensures Names(Assemble(a, ts, docker, dockerNodes))
      == RootNames + (if ts then [TsConfigName] else []) + (if docker then DockerNames else [])
  {
    var b := if ts then [TsConfigNode()] else [];
    var c := if docker then dockerNodes else [];
    assert Assemble(a, ts, docker, dockerNodes) == a + b + c;
    NamesAppend(a, b);
    NamesAppend(a + b, c);
  }

  /** The fixed nodes come first, whatever is pushed after them. */
  lemma FixedPrefix(config: ProjectConfig, analysis: Option<AnalysisResult>)
    ensures var s := FileStructureOf(config, analysis);
      |s| >= 8 && s[..8] == FixedNodes(ClaudeFolder(analysis), SourceFiles(config), config,
                                       SanitizeProjectName(config.name), EnvBlocks(config))
  {
    var a := FixedNodes(ClaudeFolder(analysis), SourceFiles(config), config,
                        SanitizeProjectName(config.name), EnvBlocks(config));
    assert |a| == |Names(a)| == 8;
    AssemblePrefix(a, UsesTypeScript(config), Dockerised(config.projectType), DockerNodes(ComposeOf(config)));
  }

  lemma AssemblePrefix(a: seq<FileNode>, ts: bool, docker: bool, dockerNodes: seq<FileNode>)
    ensures |Assemble(a, ts, docker, dockerNodes)| >= |a|
    ensures Assemble(a, ts, docker, dockerNodes)[..|a|] == a
  {
    var b := if ts then [TsConfigNode()] else [];
    var c := if docker then dockerNodes else [];
    assert Assemble(a, ts, docker, dockerNodes) == a + b + c;
    assert (a + b + c)[..|a|] == a;
  }

  /**
   * The source folder holds the source files; the agents folder under
   * `.claude` holds one file per agent of the analysis, and nothing without
   * one; `package.json` carries the sanitised name; `.env.example` the blocks.
   */
  lemma FileStructureContents(config: ProjectConfig, analysis: Option<AnalysisResult>)
    ensures var s := FileStructureOf(config, analysis);
      && |s| >= 8
      && s[1].children == SourceFiles(config)
      && s[0].children[2].children == AgentFiles(if analysis.Some? then analysis.value.requiredAgents else [])
      && s[5].content == Some(PackageJson(SanitizeProjectName(config.name), config.description, [config.projectType]))
      && s[7].content == Some(EnvExample(EnvBlocks(config)))
  {
    FixedPrefix(config, analysis);
    var s := FileStructureOf(config, analysis);
    assert s[0] == s[..8][0] && s[1] == s[..8][1] && s[5] == s[..8][5] && s[7] == s[..8][7];
  }

  /** `generateFileStructure`: the fixed nodes, then the optional pushes. */
  method GenerateFileStructure(config: ProjectConfig, analysis: Option<AnalysisResult>) returns (structure: seq<FileNode>)
    ensures structure == FileStructureOf(config, analysis)
  {
    var sourceFiles := GenerateSourceFiles(config);
    var envBlocks := GenerateEnvExample(config);
    structure := FixedNodes(ClaudeFolder(analysis), sourceFiles, config, SanitizeProjectName(config.name), envBlocks);
    if UsesTypeScript(config) {
      structure := structure + [TsConfigNode()];
    }
    if config.projectType == "microservice" || config.projectType == "api" {
      var compose := GenerateDockerCompose(config);
      structure := structure + DockerNodes(compose);
    }
  }
}
