/**
 * The catalogue of MCP servers the generator knows about, with the lookups
 * the analyser and the UI use: by category, by id, the required ones, and
 * a case-insensitive keyword search.
 */
module McpDatabase {
  import opened Wrappers
  import opened Strings
  import opened Seqs
  import opened Types

  const DesktopCommander: McpServer := McpServer(
    "desktop-commander",
    "Desktop Commander",
    "Comprehensive file system operations, terminal access, and process management",
    [
      "File read/write/edit operations",
      "Directory management",
      "File search (content and names)",
      "Terminal command execution",
      "Process management",
      "Interactive REPL sessions",
      "Configuration management"],
    [
      "Project file creation",
      "Code generation",
      "Build automation",
      "Local development tasks",
      "Script execution",
      "Data analysis with Python/Node",
      "File transformations"],
    ["filesystem", "automation"],
    Some(true),
    None)

  const GitHub: McpServer := McpServer(
    "github",
    "GitHub MCP",
    "Complete GitHub repository management and collaboration",
    [
      "Repository creation and management",
      "File operations (CRUD)",
      "Branch management",
      "Pull request workflows",
      "Issue tracking",
      "Code search",
      "Release management",
      "Collaboration features"],
    [
      "Repository initialization",
      "Code versioning",
      "Team collaboration",
      "CI/CD integration",
      "Project documentation",
      "Issue management",
      "Code review workflows"],
    ["version-control", "collaboration"],
    Some(true),
    None)

  const Supabase: McpServer := McpServer(
    "supabase",
    "Supabase MCP",
    "PostgreSQL database, authentication, storage, and backend services",
    [
      "Database schema management",
      "SQL query execution",
      "Migrations and versioning",
      "Real-time subscriptions",
      "Authentication management",
      "File storage",
      "Edge Functions deployment",
      "Performance monitoring",
      "Row-level security (RLS)"],
    [
      "Full-stack applications",
      "Real-time apps",
      "User authentication",
      "Data persistence",
      "API backends",
      "File uploads",
      "Serverless functions"],
    ["database", "backend", "authentication"],
    None,
    None)

  const Airtable: McpServer := McpServer(
    "airtable",
    "Airtable MCP",
    "No-code database with spreadsheet interface",
    [
      "Table/record CRUD operations",
      "Field management",
      "Views and filters",
      "Attachments handling",
      "Collaborative features",
      "API access",
      "Webhooks"],
    [
      "Rapid prototyping",
      "Content management",
      "Project tracking",
      "CRM systems",
      "Workflow automation",
      "Data collection",
      "Collaborative databases"],
    ["database", "automation"],
    None,
    None)

  const Apify: McpServer := McpServer(
    "apify",
    "Apify MCP",
    "Web scraping, data extraction, and automation platform",
    [
      "Actor execution (scrapers)",
      "Dataset management",
      "Web browser automation",
      "API scraping",
      "Data transformation",
      "Scheduled runs",
      "Proxy management"],
    [
      "Web scraping",
      "Market research",
      "Competitor analysis",
      "Data aggregation",
      "Content monitoring",
      "Lead generation",
      "Price tracking"],
    ["api", "automation", "data"],
    None,
    None)

  const ChromeDevTools: McpServer := McpServer(
    "chrome-devtools",
    "Chrome DevTools MCP",
    "Browser automation and web application testing",
    [
      "Page navigation",
      "Element interaction (click, fill, hover)",
      "Screenshot capture",
      "Network request inspection",
      "Console log access",
      "Performance profiling",
      "CPU/Network throttling",
      "Dialog handling",
      "JavaScript execution"],
    [
      "E2E testing",
      "Web scraping",
      "UI automation",
      "Performance testing",
      "Visual regression testing",
      "Form automation",
      "Browser-based workflows"],
    ["browser", "automation", "testing"],
    None,
    None)

  const N8n: McpServer := McpServer(
    "n8n",
    "n8n MCP",
    "Workflow automation and integration platform",
    [
      "Workflow creation and execution",
      "Node-based automation",
      "API integrations",
      "Data transformation",
      "Scheduled triggers",
      "Webhook support",
      "Error handling",
      "Template library access"],
    [
      "API integration",
      "Data synchronization",
      "Event-driven automation",
      "ETL pipelines",
      "Notification systems",
      "Multi-step workflows",
      "Business process automation"],
    ["automation", "api", "integration"],
    None,
    None)

  const Context7: McpServer := McpServer(
    "context7",
    "Context7 MCP",
    "Documentation search and library information",
    [
      "Library documentation lookup",
      "Code examples retrieval",
      "API reference search",
      "Best practices lookup",
      "Framework guides",
      "Technical specifications",
      "Version compatibility checks"],
    [
      "Learning new libraries",
      "API integration guidance",
      "Framework setup",
      "Troubleshooting",
      "Code implementation examples",
      "Technology research",
      "Documentation generation"],
    ["documentation", "research"],
    None,
    None)

  const Ssh: McpServer := McpServer(
    "ssh",
    "SSH MCP",
    "Remote server access and management",
    [
      "Remote command execution",
      "File transfer",
      "Server configuration",
      "Process management",
      "Log monitoring",
      "Service management",
      "Sudo operations"],
    [
      "Server deployment",
      "Remote management",
      "Infrastructure automation",
      "Log analysis",
      "Service monitoring",
      "Security audits",
      "Backup operations"],
    ["deployment", "infrastructure"],
    None,
    None)

  /** The catalogue, in declaration order. */
  const Registry: seq<McpServer> :=
    [DesktopCommander, GitHub, Supabase, Airtable, Apify, ChromeDevTools, N8n, Context7, Ssh]

  lemma RegistryIds()
    ensures McpIds(Registry) == ["desktop-commander", "github", "supabase", "airtable", "apify",
                                 "chrome-devtools", "n8n", "context7", "ssh"]
  {
  }

  /** No two catalogue entries share an id. */
  lemma RegistryIdsDistinct()
    ensures Distinct(McpIds(Registry))
  {
    RegistryIds();
    IdListDistinct();
  }

  lemma IdListDistinct()
    ensures Distinct(["desktop-commander", "github", "supabase", "airtable", "apify",
                      "chrome-devtools", "n8n", "context7", "ssh"])
  {
    var ids := ["desktop-commander", "github", "supabase", "airtable", "apify",
                "chrome-devtools", "n8n", "context7", "ssh"];
    var keys := [2276, 871, 1139, 1121, 737, 2019, 494, 1123, 499];
    assert forall i :: 0 <= i < |ids| ==> ids[i] != [] && IdKey(ids[i]) == keys[i];
    DistinctByKey(ids, keys);
  }

  /** A text's length and first character, packed in one number. */
  function IdKey(s: string): int
    requires s != []
  {
    |s| * 128 + s[0] as int
  }

  /** Texts whose keys are pairwise different are pairwise different. */
  lemma DistinctByKey(ids: seq<string>, keys: seq<int>)
    requires |keys| == |ids|
    requires forall i :: 0 <= i < |ids| ==> ids[i] != [] && IdKey(ids[i]) == keys[i]
    requires Distinct(keys)
    ensures Distinct(ids)
  {
  }

  /** `getMCPsByCategory`: the servers listing `category`, in catalogue order. */
  function GetMcpsByCategory(category: string): (r: seq<McpServer>)
    ensures forall i :: 0 <= i < |r| ==> r[i] in Registry && category in r[i].categories
    ensures forall i :: 0 <= i < |Registry| && category in Registry[i].categories ==> Registry[i] in r
    ensures IsSubsequence(r, Registry)
  {
    FilterIsSubsequence(Registry, (m: McpServer) => category in m.categories);
    Filter(Registry, (m: McpServer) => category in m.categories)
  }

  /** `find` by id over an arbitrary list: the first server with that id. */
  function FindById(s: seq<McpServer>, id: string): (r: Option<McpServer>)
    ensures r.Some? ==> r.value in s && r.value.id == id
    ensures r.None? <==> forall i :: 0 <= i < |s| ==> s[i].id != id
    ensures r.Some? ==> exists i :: 0 <= i < |s| && s[i] == r.value && forall j :: 0 <= j < i ==> s[j].id != id
    decreases |s|
  {
    if s == [] then None
    else if s[0].id == id then Some(s[0])
    else
      var r := FindById(s[1..], id);
      assert r.Some? ==> exists i :: 0 <= i < |s[1..]| && s[1..][i] == r.value && forall j :: 0 <= j < i ==> s[1..][j].id != id;
      r
  }

  /** `getMCPById`. */
  function GetMcpById(id: string): (r: Option<McpServer>)
    ensures r.Some? ==> r.value in Registry && r.value.id == id
    ensures r.None? <==> id !in McpIds(Registry)
  {
    FindById(Registry, id)
  }

  /** Every catalogue entry is found by its own id. */
  lemma GetMcpByIdFindsEntry(i: nat)
    requires i < |Registry|
    ensures GetMcpById(Registry[i].id) == Some(Registry[i])
  {
    RegistryIdsDistinct();
    var r := GetMcpById(Registry[i].id);
    var k :| 0 <= k < |Registry| && Registry[k] == r.value && forall j :: 0 <= j < k ==> Registry[j].id != Registry[i].id;
    assert McpIds(Registry)[k] == McpIds(Registry)[i];
  }

  predicate IsRequired(m: McpServer) { m.required == Some(true) }

  /** `getRequiredMCPs`: the servers flagged required, in catalogue order. */
  function GetRequiredMcps(): (r: seq<McpServer>)
    ensures forall i :: 0 <= i < |r| ==> r[i] in Registry && IsRequired(r[i])
    ensures forall i :: 0 <= i < |Registry| && IsRequired(Registry[i]) ==> Registry[i] in r
  {
    Filter(Registry, IsRequired)
  }

  /** Exactly Desktop Commander and GitHub are required, in that order. */
  lemma RequiredAreDesktopCommanderAndGitHub()
    ensures GetRequiredMcps() == [DesktopCommander, GitHub]
  {
    var tail := Registry[2..];
    assert forall i :: 0 <= i < |tail| ==> !IsRequired(tail[i]);
    FilterNone(tail, IsRequired);
    assert Registry[1..][1..] == tail;
    assert Filter(Registry[1..], IsRequired) == [GitHub] + Filter(tail, IsRequired);
    assert Filter(Registry, IsRequired) == [DesktopCommander] + Filter(Registry[1..], IsRequired);
  }

  /** The search's match: name, description, a capability or a use case contains the lower-cased query. */
  predicate MatchesQuery(m: McpServer, lowerQuery: string) {
    Contains(LowerStr(m.name), lowerQuery)
    || Contains(LowerStr(m.description), lowerQuery)
    || (exists i :: 0 <= i < |m.capabilities| && Contains(LowerStr(m.capabilities[i]), lowerQuery))
    || (exists i :: 0 <= i < |m.useCases| && Contains(LowerStr(m.useCases[i]), lowerQuery))
  }

  /** `searchMCPs`: the matching servers, in catalogue order. */
  function SearchMcps(query: string): (r: seq<McpServer>)
    ensures forall i :: 0 <= i < |r| ==> r[i] in Registry && MatchesQuery(r[i], LowerStr(query))
    ensures forall i :: 0 <= i < |Registry| && MatchesQuery(Registry[i], LowerStr(query)) ==> Registry[i] in r
  {
    Filter(Registry, (m: McpServer) => MatchesQuery(m, LowerStr(query)))
  }

  /** An empty query matches every server. */
  lemma SearchEmptyReturnsAll()
    ensures SearchMcps("") == Registry
  {
    forall i | 0 <= i < |Registry|
      ensures MatchesQuery(Registry[i], LowerStr(""))
    {
      ContainsEmpty(LowerStr(Registry[i].name));
    }
    FilterAll(Registry, (m: McpServer) => MatchesQuery(m, LowerStr("")));
  }

  /** The search ignores the case of the query. */
  lemma SearchIgnoresQueryCase(query: string)
    ensures SearchMcps(query) == SearchMcps(LowerStr(query))
  {
    LowerStrIdempotent(query);
  }

  /** Ids and categories take no part in the search. */
  lemma SearchIgnoresIdAndCategories(m: McpServer, id: string, categories: seq<string>, lowerQuery: string)
    ensures MatchesQuery(m.(id := id, categories := categories), lowerQuery) == MatchesQuery(m, lowerQuery)
  {
  }
}
