/**
 * `ProjectAnalyzer`: turns a project configuration and the AI's MCP
 * recommendations into the analysis result — the recommended MCP servers,
 * the agent roster, the task breakdown and the collaboration protocol.
 */
module Analysis {
  import opened Wrappers
  import opened Seqs
  import opened Digits
  import opened Types
  import opened McpDatabase
  import opened ClaudeClient

  // ---------------------------------------------------------------------
  // MCP selection
  // ---------------------------------------------------------------------

  /** A catalogue entry carrying a recommendation's `required` and `reasoning`. */
  function Annotate(m: McpServer, rec: Rec): (r: McpServer)
    ensures r.(required := m.required, reasoning := m.reasoning) == m
    ensures r.required == Some(rec.required) && r.reasoning == Some(rec.reasoning)
  {
    m.(required := Some(rec.required), reasoning := Some(rec.reasoning))
  }

  /** A `Map<string, MCPServer>`: its keys in insertion order, and its entries. */
  datatype McpMap = McpMap(keys: seq<string>, entries: map<string, McpServer>)

  /** A lookup that only ever returns an entry with the id it was asked for. */
  ghost predicate Keyed(lookup: string -> Option<McpServer>) {
    forall id :: lookup(id).Some? ==> lookup(id).value.id == id
  }

  /** The map after `recommendations.forEach(...)` over `recs`, with `lookup` finding catalogue entries. */
  function MergeRecs(recs: seq<Rec>, lookup: string -> Option<McpServer>): McpMap
    decreases |recs|
  {
    if recs == [] then McpMap([], map[])
    else
      var prev := MergeRecs(recs[..|recs| - 1], lookup);
      var rec := recs[|recs| - 1];
      match lookup(rec.id)
      case None => prev
      case Some(m) =>
        McpMap(if m.id in prev.entries then prev.keys else prev.keys + [m.id],
               prev.entries[m.id := Annotate(m, rec)])
  }

  function RecIds(recs: seq<Rec>): (r: seq<string>)
    ensures |r| == |recs|
    ensures forall i :: 0 <= i < |recs| ==> r[i] == recs[i].id
  {
    seq(|recs|, i requires 0 <= i < |recs| => recs[i].id)
  }

  /** The last recommendation with a given id. */
  function LastRecFor(recs: seq<Rec>, id: string): (r: Option<Rec>)
    ensures r.Some? <==> id in RecIds(recs)
    ensures r.Some? ==> r.value in recs && r.value.id == id
    decreases |recs|
  {
    if recs == [] then None
    else if recs[|recs| - 1].id == id then Some(recs[|recs| - 1])
    else
      assert RecIds(recs) == RecIds(recs[..|recs| - 1]) + [recs[|recs| - 1].id];
      LastRecFor(recs[..|recs| - 1], id)
  }

  /** The map's keys are distinct and are exactly its entries' keys. */
  lemma {:induction false} MergeKeysDistinct(recs: seq<Rec>, lookup: string -> Option<McpServer>)
    ensures Distinct(MergeRecs(recs, lookup).keys)
    ensures forall k :: k in MergeRecs(recs, lookup).entries <==> k in MergeRecs(recs, lookup).keys
    decreases |recs|
  {
    if recs != [] {
      MergeKeysDistinct(recs[..|recs| - 1], lookup);
    }
  }

  /** A key is present iff some recommendation names it and the catalogue knows it. */
  lemma {:induction false} MergeKeysKnown(recs: seq<Rec>, lookup: string -> Option<McpServer>)
    requires Keyed(lookup)
    ensures forall k :: k in MergeRecs(recs, lookup).keys <==> k in RecIds(recs) && lookup(k).Some?
    decreases |recs|
  {
    if recs != [] {
      var pre := recs[..|recs| - 1];
      MergeKeysKnown(pre, lookup);
      MergeKeysDistinct(pre, lookup);
      assert RecIds(recs) == RecIds(pre) + [recs[|recs| - 1].id];
    }
  }

  /** Each entry is the catalogue entry annotated by the last recommendation for its id. */
  lemma {:induction false} MergeEntriesLast(recs: seq<Rec>, lookup: string -> Option<McpServer>)
    requires Keyed(lookup)
    ensures forall k :: k in MergeRecs(recs, lookup).entries ==>
      lookup(k).Some? && LastRecFor(recs, k).Some?
      && MergeRecs(recs, lookup).entries[k] == Annotate(lookup(k).value, LastRecFor(recs, k).value)
    decreases |recs|
  {
    if recs != [] {
      var pre := recs[..|recs| - 1];
      var rec := recs[|recs| - 1];
      MergeEntriesLast(pre, lookup);
      var prev := MergeRecs(pre, lookup);
      var cur := MergeRecs(recs, lookup);
      forall k | k in cur.entries
        ensures lookup(k).Some? && LastRecFor(recs, k).Some?
          && cur.entries[k] == Annotate(lookup(k).value, LastRecFor(recs, k).value)
      {
        if k == rec.id {
          assert LastRecFor(recs, k) == Some(rec);
        } else {
          assert LastRecFor(recs, k) == LastRecFor(pre, k);
          assert cur.entries[k] == prev.entries[k];
        }
      }
    }
  }

  /** Keys are ordered by the first recommendation naming them. */
  lemma {:induction false} MergeKeysOrder(recs: seq<Rec>, lookup: string -> Option<McpServer>)
    requires Keyed(lookup)
    ensures forall k :: k in MergeRecs(recs, lookup).keys ==> k in RecIds(recs)
    ensures OrderedByFirst(MergeRecs(recs, lookup).keys, RecIds(recs))
    decreases |recs|
  {
    MergeKeysKnown(recs, lookup);
    if recs != [] {
      var pre := recs[..|recs| - 1];
      var rec := recs[|recs| - 1];
      var prev := MergeRecs(pre, lookup);
      MergeKeysOrder(pre, lookup);
      MergeKeysKnown(pre, lookup);
      MergeKeysDistinct(pre, lookup);
      assert RecIds(recs) == RecIds(pre) + [rec.id];
      OrderSnoc(prev.keys, RecIds(pre), rec.id);
    }
  }

  /** `Array.from(mcpMap.values())`. */
  function MapValues(mm: McpMap): (r: seq<McpServer>)
    requires forall k :: k in mm.keys ==> k in mm.entries
    ensures |r| == |mm.keys|
    ensures forall i :: 0 <= i < |r| ==> r[i] == mm.entries[mm.keys[i]]
  {
    seq(|mm.keys|, i requires 0 <= i < |mm.keys| => mm.entries[mm.keys[i]])
  }

  /**
   * What the merge promises about its values: distinct ids, exactly the
   * recommended ids the catalogue knows, each entry the catalogue entry
   * annotated by the last recommendation for its id, in order of first
   * recommendation.
   */
  ghost predicate MergedFrom(mcps: seq<McpServer>, recs: seq<Rec>, lookup: string -> Option<McpServer>) {
    && Distinct(McpIds(mcps))
    && (forall id :: id in McpIds(mcps) <==> id in RecIds(recs) && lookup(id).Some?)
    && (forall i :: 0 <= i < |mcps| ==>
          lookup(mcps[i].id).Some? && LastRecFor(recs, mcps[i].id).Some?
          && mcps[i] == Annotate(lookup(mcps[i].id).value, LastRecFor(recs, mcps[i].id).value))
    && OrderedByFirst(McpIds(mcps), RecIds(recs))
  }

  /** The map's values in insertion order satisfy `MergedFrom`. */
  lemma MergeValues(recs: seq<Rec>, lookup: string -> Option<McpServer>)
    requires Keyed(lookup)
    ensures forall k :: k in MergeRecs(recs, lookup).keys ==> k in MergeRecs(recs, lookup).entries
    ensures MergedFrom(MapValues(MergeRecs(recs, lookup)), recs, lookup)
  {
    var mm := MergeRecs(recs, lookup);
    MergeKeysDistinct(recs, lookup);
    MergeKeysKnown(recs, lookup);
    MergeEntriesLast(recs, lookup);
    MergeKeysOrder(recs, lookup);
    var mcps := MapValues(mm);
    forall i | 0 <= i < |mcps|
      ensures mcps[i].id == mm.keys[i]
    {
      assert mm.keys[i] in mm.entries;
    }
    assert McpIds(mcps) == mm.keys;
  }

  /** The servers `analyzeMCPs` returns once the recommendation call has returned or thrown. */
  function McpsOf(outcome: RecommendOutcome): seq<McpServer> {
    match outcome
    case RecommendThrew(_) => GetRequiredMcps()
    case Recommended(recs) =>
      MergeKeysDistinct(recs, GetMcpById);
      MapValues(MergeRecs(recs, GetMcpById))
  }

  /**
   * If the call threw, the result is the required servers, Desktop Commander
   * and GitHub. On success every entry is the catalogue entry for its id,
   * annotated by the last recommendation with that id; ids are distinct,
   * unknown ids are dropped, entries appear in order of first recommendation,
   * and nothing is added that the AI did not name.
   */
  lemma McpsOfSpec(outcome: RecommendOutcome)
    ensures outcome.RecommendThrew? ==> McpsOf(outcome) == [DesktopCommander, GitHub]
    ensures outcome.Recommended? ==> MergedFrom(McpsOf(outcome), outcome.recs, GetMcpById)
  {
    match outcome
    case RecommendThrew(_) =>
      RequiredAreDesktopCommanderAndGitHub();
    case Recommended(recs) =>
      MergeValues(recs, GetMcpById);
  }

  /** `analyzeMCPs`, with the outcome of the recommendation call as input. */
  method AnalyzeMcps(outcome: RecommendOutcome) returns (mcps: seq<McpServer>)
    ensures mcps == McpsOf(outcome)
  {
    match outcome
    case RecommendThrew(_) =>
      mcps := GetRequiredMcps();
    case Recommended(recs) =>
      var mcpMap := MergeRecommendations(recs, GetMcpById);
      MergeKeysDistinct(recs, GetMcpById);
      mcps := MapValues(mcpMap);
  }

  /** The `forEach` over the recommendations, filling the map in place. */
  method MergeRecommendations(recs: seq<Rec>, lookup: string -> Option<McpServer>) returns (mcpMap: McpMap)
    ensures mcpMap == MergeRecs(recs, lookup)
  {
    var keys: seq<string> := [];
    var entries: map<string, McpServer> := map[];
    for i := 0 to |recs|
      invariant McpMap(keys, entries) == MergeRecs(recs[..i], lookup)
    {
      assert recs[..i + 1][..i] == recs[..i];
      var rec := recs[i];
      var found := lookup(rec.id);
      if found.Some? {
        var m := found.value;
        if m.id !in entries {
          keys := keys + [m.id];
        }
        entries := entries[m.id := Annotate(m, rec)];
      }
    }
    assert recs[..|recs|] == recs;
    mcpMap := McpMap(keys, entries);
  }

  // ---------------------------------------------------------------------
  // Agent roster
  // ---------------------------------------------------------------------

  /** The agent roles, in the order the analyser considers them. */
  datatype Role = Managing | Frontend | Backend | Data | Security | Qa | Documentation | DevOps | Research

  function RoleId(r: Role): string {
    match r
    case Managing => "managing-agent"
    case Frontend => "frontend-agent"
    case Backend => "backend-agent"
    case Data => "data-agent"
    case Security => "security-agent"
    case Qa => "qa-agent"
    case Documentation => "documentation-agent"
    case DevOps => "devops-agent"
    case Research => "research-agent"
  }

  /** The role an agent id stands for, if any. */
  function RoleOf(id: string): (r: Option<Role>)
    ensures r.Some? ==> RoleId(r.value) == id
  {
    match id
    case "managing-agent" => Some(Managing)
    case "frontend-agent" => Some(Frontend)
    case "backend-agent" => Some(Backend)
    case "data-agent" => Some(Data)
    case "security-agent" => Some(Security)
    case "qa-agent" => Some(Qa)
    case "documentation-agent" => Some(Documentation)
    case "devops-agent" => Some(DevOps)
    case "research-agent" => Some(Research)
    case _ => None
  }

  /** Every role is recovered from its id. */
  lemma RoleIdRoundTrip(r: Role)
    ensures RoleOf(RoleId(r)) == Some(r)
  {
    match r
    case Managing =>
    case Frontend =>
    case Backend =>
    case Data =>
    case Security =>
    case Qa =>
    case Documentation =>
    case DevOps =>
    case Research =>
  }

  /** The position of a role in the analyser's fixed order. */
  function Rank(r: Role): nat {
    match r
    case Managing => 0
    case Frontend => 1
    case Backend => 2
    case Data => 3
    case Security => 4
    case Qa => 5
    case Documentation => 6
    case DevOps => 7
    case Research => 8
  }

  /** The analyser's six role predicates, evaluated. */
  datatype Needs = Needs(frontend: bool, backend: bool, data: bool, security: bool, qaAndDevOps: bool, research: bool)

  /**
   * frontend iff the type is saas, website or mobile-app; backend iff saas,
   * api or website; data and security iff some feature has category
   * database or authentication; QA and DevOps iff the complexity is not
   * simple; research iff it is complex or enterprise.
   */
  function NeedsOf(config: ProjectConfig): Needs {
    Needs(config.projectType in {"saas", "website", "mobile-app"},
          config.projectType in {"saas", "api", "website"},
          HasFeatureCategory(config, "database"),
          HasFeatureCategory(config, "authentication"),
          config.metadata.estimatedComplexity != "simple",
          config.metadata.estimatedComplexity in {"complex", "enterprise"})
  }

  /** Whether a role is selected; managing and documentation always are. */
  predicate Selected(n: Needs, r: Role) {
    match r
    case Managing => true
    case Frontend => n.frontend
    case Backend => n.backend
    case Data => n.data
    case Security => n.security
    case Qa => n.qaAndDevOps
    case Documentation => true
    case DevOps => n.qaAndDevOps
    case Research => n.research
  }

  /** `if (b) push(x)`. */
  function Pick<T>(s: seq<T>, b: bool, x: T): seq<T> {
    if b then s + [x] else s
  }

  /** The role of a given rank. */
  function RoleAt(k: nat): (r: Role)
    requires k < 9
    ensures Rank(r) == k
  {
    if k == 0 then Managing else if k == 1 then Frontend else if k == 2 then Backend
    else if k == 3 then Data else if k == 4 then Security else if k == 5 then Qa
    else if k == 6 then Documentation else if k == 7 then DevOps else Research
  }

  lemma RoleAtRank(r: Role)
    ensures RoleAt(Rank(r)) == r
  {
  }

  /** The selected roles among the first `k` in the fixed order. */
  function RolesUpTo(n: Needs, k: nat): seq<Role>
    requires k <= 9
  {
    if k == 0 then [] else Pick(RolesUpTo(n, k - 1), Selected(n, RoleAt(k - 1)), RoleAt(k - 1))
  }

  /** The selected roles, in the order the analyser pushes their agents. */
  function ExpectedRoles(config: ProjectConfig): seq<Role> {
    RolesUpTo(NeedsOf(config), 9)
  }

  lemma {:induction false} RolesUpToIn(n: Needs, k: nat, y: Role)
    requires k <= 9
    ensures y in RolesUpTo(n, k) <==> Selected(n, y) && Rank(y) < k
  {
    if k > 0 {
      RolesUpToIn(n, k - 1, y);
      RoleAtRank(y);
    }
  }

  /** Strictly increasing ranks, all below `bound`. */
  predicate Ranked(r: seq<Role>, bound: nat) {
    && (forall i :: 0 <= i < |r| ==> Rank(r[i]) < bound)
    && (forall i, j :: 0 <= i < j < |r| ==> Rank(r[i]) < Rank(r[j]))
  }

  lemma {:induction false} RolesUpToRanked(n: Needs, k: nat)
    requires k <= 9
    ensures Ranked(RolesUpTo(n, k), k)
  {
    if k > 0 {
      RolesUpToRanked(n, k - 1);
      var x := RoleAt(k - 1);
      assert Rank(x) == k - 1;
    }
  }

  /**
   * The selected roles in the fixed order, each once: managing first,
   * documentation always, every other role present iff its predicate holds.
   */
  lemma RolesSpec(n: Needs)
    ensures var r := RolesUpTo(n, 9);
      && |r| >= 2 && r[0] == Managing && Documentation in r
      && (forall i, j :: 0 <= i < j < |r| ==> Rank(r[i]) < Rank(r[j]))
      && (forall y :: y in r <==> Selected(n, y))
  {
    var r := RolesUpTo(n, 9);
    RolesUpToRanked(n, 9);
    assert Ranked(r, 9);
    forall y
      ensures y in r <==> Selected(n, y)
    {
      RolesUpToIn(n, 9, y);
    }
    RolesUpToIn(n, 9, Managing);
    RolesUpToIn(n, 9, Documentation);
    var m :| 0 <= m < |r| && r[m] == Managing;
    var d :| 0 <= d < |r| && r[d] == Documentation;
    assert m != d;
  }

  function RoleIds(roles: seq<Role>): (r: seq<string>)
    ensures |r| == |roles|
    ensures forall i :: 0 <= i < |roles| ==> r[i] == RoleId(roles[i])
  {
    seq(|roles|, i requires 0 <= i < |roles| => RoleId(roles[i]))
  }

  /** The roster's agent ids, in order. */
  function ExpectedRoster(config: ProjectConfig): seq<string> {
    RoleIds(ExpectedRoles(config))
  }

  /**
   * The roster's ids: `managing-agent` first, `documentation-agent`
   * always, each id once, and a role's id present iff the configuration
   * selects the role.
   */
  lemma ExpectedRosterSpec(config: ProjectConfig)
    ensures var r := ExpectedRoster(config);
      && |r| >= 2 && r[0] == "managing-agent" && "documentation-agent" in r
      && Distinct(r)
      && forall role :: RoleId(role) in r <==> Selected(NeedsOf(config), role)
  {
    var roles := ExpectedRoles(config);
    RolesSpec(NeedsOf(config));
    var r := RoleIds(roles);
    assert RoleId(Documentation) in r;
    forall i, j | 0 <= i < j < |r|
      ensures r[i] != r[j]
    {
      RoleIdRoundTrip(roles[i]);
      RoleIdRoundTrip(roles[j]);
    }
    forall role | RoleId(role) in r
      ensures role in roles
    {
      var i :| 0 <= i < |r| && r[i] == RoleId(role);
      RoleIdRoundTrip(role);
      RoleIdRoundTrip(roles[i]);
    }
  }

  /** The MCP servers a role may use, before filtering by the recommendations. */
  function RoleCandidates(role: Role): seq<string> {
    match role
    case Frontend => ["desktop-commander", "github", "chrome-devtools"]
    case Backend => ["desktop-commander", "github", "supabase", "n8n"]
    case Data => ["desktop-commander", "github", "supabase", "airtable"]
    case Security => ["desktop-commander", "github", "supabase"]
    case Qa => ["desktop-commander", "github", "chrome-devtools"]
    case Documentation => ["desktop-commander", "github", "context7"]
    case DevOps => ["desktop-commander", "github", "ssh"]
    case Research => ["desktop-commander", "context7", "apify"]
    case Managing => []
  }

  /** `candidates.filter(id => mcpIds.includes(id))`. */
  function Available(candidates: seq<string>, mcpIds: seq<string>): (r: seq<string>)
    ensures forall i :: 0 <= i < |r| ==> r[i] in mcpIds && r[i] in candidates
    ensures forall i :: 0 <= i < |candidates| && candidates[i] in mcpIds ==> candidates[i] in r
    ensures IsSubsequence(r, candidates)
  {
    FilterIsSubsequence(candidates, (c: string) => c in mcpIds);
    Filter(candidates, (c: string) => c in mcpIds)
  }

  /** An agent's `mcpAccess`: every recommended id for managing, the fixed list for frontend, else the recommended candidates. */
  function Access(role: Role, mcpIds: seq<string>): seq<string> {
    match role
    case Managing => mcpIds
    case Frontend => RoleCandidates(Frontend)
    case _ => Available(RoleCandidates(role), mcpIds)
  }

  /** `collaboratesWith` as pushed (the managing agent's is filled in afterwards). */
  function Collaborators(role: Role): seq<string> {
    match role
    case Managing => []
    case Frontend => ["managing-agent", "backend-agent"]
    case Backend => ["managing-agent", "frontend-agent", "data-agent"]
    case Data => ["managing-agent", "backend-agent"]
    case Security => ["managing-agent", "backend-agent"]
    case _ => ["managing-agent"]
  }

  function RolePriority(role: Role): Priority {
    match role
    case Managing => Critical
    case Frontend => High
    case Backend => High
    case Data => High
    case Security => High
    case Research => Low
    case _ => Medium
  }

  /** An agent's descriptive text: display name, role title and responsibilities. */
  datatype Profile = Profile(name: string, title: string, responsibilities: seq<string>)

  /** The analyser's descriptive text for each role. */
  function AgentProfile(role: Role): Profile {
    match role
    case Managing => Profile("Managing Agent", "Project Orchestrator & Strategic Decision Maker",
        ["Coordinate all agents and delegate tasks", "Make strategic architectural decisions",
        "Resolve conflicts between agents", "Track overall project progress", "Ensure code quality standards",
        "Manage project timeline and priorities", "Review and approve all major changes"])
    case Frontend => Profile("Frontend Agent", "UI/UX Developer",
        ["Build responsive user interfaces", "Implement component architecture",
        "Handle state management", "Optimize frontend performance", "Ensure accessibility standards",
        "Integrate with backend APIs", "Implement design systems"])
    case Backend => Profile("Backend Agent", "API & Business Logic Developer",
        ["Design and implement REST/GraphQL APIs", "Develop business logic and services",
        "Handle data validation and processing", "Implement authentication and authorization",
        "Optimize database queries", "Build scalable architecture", "Handle error management"])
    case Data => Profile("Data Agent", "Database Architect & Data Engineer",
        ["Design optimal database schemas", "Create and manage migrations",
        "Implement data seeding strategies", "Optimize query performance", "Handle data relationships",
        "Implement caching strategies", "Ensure data integrity"])
    case Security => Profile("Security Agent", "Security & Authentication Specialist",
        ["Implement authentication flows", "Set up authorization rules",
        "Configure security policies (RLS, CORS)", "Handle sensitive data encryption",
        "Implement input validation", "Conduct security audits", "Manage API keys and secrets"])
    case Qa => Profile("QA Agent", "Quality Assurance & Testing Specialist",
        ["Write unit and integration tests", "Implement E2E test suites", "Perform code reviews",
        "Test edge cases and error scenarios", "Ensure code coverage standards", "Validate user flows",
        "Report and track bugs"])
    case Documentation => Profile("Documentation Agent", "Technical Writer & Documentation Specialist",
        ["Write comprehensive README files", "Document API endpoints",
        "Create code comments and JSDoc", "Write setup and deployment guides", "Maintain changelog",
        "Create user documentation", "Document architecture decisions"])
    case DevOps => Profile("DevOps Agent", "Deployment & Infrastructure Engineer",
        ["Set up CI/CD pipelines", "Configure deployment environments",
        "Implement monitoring and logging", "Manage infrastructure as code", "Optimize build processes",
        "Handle container orchestration", "Ensure deployment reliability"])
    case Research => Profile("Research Agent", "Technology Researcher & Advisor",
        ["Research best practices and patterns", "Evaluate technology choices",
        "Find and recommend libraries", "Stay updated on latest developments", "Provide technical guidance",
        "Identify potential issues early", "Suggest optimizations"])
  }

  /**
   * The agent object pushed for a role. Its descriptive text is looked up
   * in `profile` (the analyser uses `AgentProfile`); every property proved
   * about the roster holds whatever that text is.
   */
  function RoleAgent(role: Role, mcpIds: seq<string>, profile: Role -> Profile): Agent {
    var p := profile(role);
    Agent(RoleId(role), p.name, p.title, p.responsibilities, Access(role, mcpIds), Collaborators(role), RolePriority(role))
  }

  /** The agent for each role, given the recommended MCP ids and the descriptive text. */
  function AgentMaker(mcpIds: seq<string>, profile: Role -> Profile): Role -> Agent {
    role => RoleAgent(role, mcpIds, profile)
  }

  /** One agent per role, in order: the reference definition of the roster before its first agent is completed. */
  function AgentsFor(roles: seq<Role>, agentOf: Role -> Agent): (r: seq<Agent>)
    ensures |r| == |roles|
    ensures forall i :: 0 <= i < |roles| ==> r[i] == agentOf(roles[i])
  {
    seq(|roles|, i requires 0 <= i < |roles| => agentOf(roles[i]))
  }

  /** `if (wanted) agents.push(<the agent for role>)`. */
  function Added(agents: seq<Agent>, wanted: bool, role: Role, agentOf: Role -> Agent): seq<Agent> {
    if wanted then agents + [agentOf(role)] else agents
  }

  /** The agents `analyzeAgents` has pushed after considering the first `k` roles of the fixed order. */
  function PushedUpTo(n: Needs, k: nat, agentOf: Role -> Agent): seq<Agent>
    requires k <= 9
  {
    if k == 0 then [] else Added(PushedUpTo(n, k - 1, agentOf), Selected(n, RoleAt(k - 1)), RoleAt(k - 1), agentOf)
  }

  /** The pushes produce exactly the agents of the selected roles, in the fixed order. */
  lemma {:induction false} PushedUpToAgents(n: Needs, k: nat, agentOf: Role -> Agent)
    requires k <= 9
    ensures PushedUpTo(n, k, agentOf) == AgentsFor(RolesUpTo(n, k), agentOf)
  {
    if k > 0 {
      PushedUpToAgents(n, k - 1, agentOf);
      var r := RolesUpTo(n, k - 1);
      if Selected(n, RoleAt(k - 1)) {
        assert AgentsFor(r + [RoleAt(k - 1)], agentOf) == AgentsFor(r, agentOf) + [agentOf(RoleAt(k - 1))];
      }
    }
  }

  /** Once the managing agent is pushed the roster is never empty. */
  lemma {:induction false} PushedUpToNonEmpty(n: Needs, k: nat, agentOf: Role -> Agent)
    requires 1 <= k <= 9
    ensures |PushedUpTo(n, k, agentOf)| >= 1
  {
    if k > 1 {
      PushedUpToNonEmpty(n, k - 1, agentOf);
    }
  }

  /** The pushed agents with the first one's collaborators overwritten by the ids of all the others. */
  function RosterWith(config: ProjectConfig, agentOf: Role -> Agent): seq<Agent> {
    var a := PushedUpTo(NeedsOf(config), 9, agentOf);
    if a == [] then a else a[0 := a[0].(collaboratesWith := AgentIds(a[1..]))]
  }

  /** The roster `analyzeAgents` returns. */
  function Roster(config: ProjectConfig, mcpIds: seq<string>): seq<Agent> {
    RosterWith(config, AgentMaker(mcpIds, AgentProfile))
  }

  /** A non-managing agent's MCP access: the fixed list for frontend, otherwise recommended candidates only, all of them, in candidate order. */
  predicate AccessOk(access: seq<string>, role: Role, mcpIds: seq<string>) {
    && (role == Frontend ==> access == RoleCandidates(Frontend))
    && (role != Frontend ==>
          (forall k :: 0 <= k < |access| ==> access[k] in mcpIds)
          && IsSubsequence(access, RoleCandidates(role))
          && (forall c :: c in RoleCandidates(role) && c in mcpIds ==> c in access))
  }

  lemma AccessRule(role: Role, mcpIds: seq<string>)
    requires role != Managing
    ensures AccessOk(Access(role, mcpIds), role, mcpIds)
  {
    if role != Frontend {
      var a := Access(role, mcpIds);
      assert a == Available(RoleCandidates(role), mcpIds);
      forall c | c in RoleCandidates(role) && c in mcpIds
        ensures c in a
      {
        var k :| 0 <= k < |RoleCandidates(role)| && RoleCandidates(role)[k] == c;
      }
    }
  }

  lemma CollaboratesWithManaging(role: Role)
    requires role != Managing
    ensures "managing-agent" in Collaborators(role)
  {
    assert Collaborators(role)[0] == "managing-agent";
  }

  /** The agent ids of `AgentsFor` are the roles' ids when every agent carries its role's id. */
  lemma AgentsForIds(roles: seq<Role>, agentOf: Role -> Agent)
    requires forall role :: agentOf(role).id == RoleId(role)
    ensures AgentIds(AgentsFor(roles, agentOf)) == RoleIds(roles)
  {
    var a := AgentsFor(roles, agentOf);
    forall i | 0 <= i < |roles|
      ensures AgentIds(a)[i] == RoleIds(roles)[i]
    {
      assert a[i] == agentOf(roles[i]);
    }
  }

  /** Completing the first agent keeps every id and changes nothing after it. */
  lemma CompleteFirstIds(a: seq<Agent>)
    requires a != []
    ensures var r := a[0 := a[0].(collaboratesWith := AgentIds(a[1..]))];
      && AgentIds(r) == AgentIds(a) && r[1..] == a[1..]
  {
    var r := a[0 := a[0].(collaboratesWith := AgentIds(a[1..]))];
    assert r[1..] == a[1..];
    forall i | 0 <= i < |a|
      ensures AgentIds(r)[i] == AgentIds(a)[i]
    {
    }
  }

  /**
   * The managing agent heads the roster: critical, with access to every
   * recommended MCP, collaborating with every other agent in roster order;
   * the roster's ids are the expected ones.
   */
  lemma RosterManaging(config: ProjectConfig, mcpIds: seq<string>, profile: Role -> Profile)
    ensures var r := RosterWith(config, AgentMaker(mcpIds, profile));
      && |r| >= 2 && AgentIds(r) == ExpectedRoster(config)
      && r[0].id == "managing-agent" && r[0].priority == Critical && r[0].mcpAccess == mcpIds
      && r[0].collaboratesWith == AgentIds(r)[1..]
  {
    var n := NeedsOf(config);
    var roles := RolesUpTo(n, 9);
    var f := AgentMaker(mcpIds, profile);
    RolesSpec(n);
    PushedUpToAgents(n, 9, f);
    var a := PushedUpTo(n, 9, f);
    assert a[0] == RoleAgent(Managing, mcpIds, profile);
    AgentsForIds(roles, f);
    CompleteFirstIds(a);
  }

  /**
   * Every other agent has its role's id and priority, names the managing
   * agent among its collaborators, and follows its role's MCP access rule.
   */
  lemma RosterMembers(config: ProjectConfig, mcpIds: seq<string>, profile: Role -> Profile)
    ensures var r := RosterWith(config, AgentMaker(mcpIds, profile));
      && |r| == |ExpectedRoles(config)|
      && forall i :: 1 <= i < |r| ==>
        var role := ExpectedRoles(config)[i];
        && r[i].id == RoleId(role) && r[i].priority == RolePriority(role)
        && "managing-agent" in r[i].collaboratesWith
        && AccessOk(r[i].mcpAccess, role, mcpIds)
  {
    var n := NeedsOf(config);
    var roles := RolesUpTo(n, 9);
    var f := AgentMaker(mcpIds, profile);
    RolesSpec(n);
    PushedUpToAgents(n, 9, f);
    var r := RosterWith(config, f);
    forall i | 1 <= i < |r|
      ensures && r[i].id == RoleId(roles[i]) && r[i].priority == RolePriority(roles[i])
              && "managing-agent" in r[i].collaboratesWith && AccessOk(r[i].mcpAccess, roles[i], mcpIds)
    {
      assert Rank(roles[0]) < Rank(roles[i]);
      assert r[i] == RoleAgent(roles[i], mcpIds, profile);
      AccessRule(roles[i], mcpIds);
      CollaboratesWithManaging(roles[i]);
    }
  }

  /** `if (wanted) agents.push(...)` for the role of rank `k`, the step from `k` roles considered to `k + 1`. */
  method PushIf(agents: seq<Agent>, wanted: bool, role: Role, agentOf: Role -> Agent, ghost n: Needs, ghost k: nat)
    returns (agents': seq<Agent>)
    requires k < 9 && role == RoleAt(k) && wanted == Selected(n, role)
    requires agents == PushedUpTo(n, k, agentOf)
    ensures agents' == PushedUpTo(n, k + 1, agentOf)
  {
    agents' := agents;
    if wanted {
      agents' := agents' + [agentOf(role)];
    }
  }

  /** The nine conditional pushes of `analyzeAgents`, in the fixed order. */
  method PushRoles(n: Needs, agentOf: Role -> Agent) returns (agents: seq<Agent>)
    ensures agents == PushedUpTo(n, 9, agentOf) && |agents| >= 1
  {
    agents := [];
    agents := PushIf(agents, true, Managing, agentOf, n, 0);
    agents := PushIf(agents, n.frontend, Frontend, agentOf, n, 1);
    agents := PushIf(agents, n.backend, Backend, agentOf, n, 2);
    agents := PushIf(agents, n.data, Data, agentOf, n, 3);
    agents := PushIf(agents, n.security, Security, agentOf, n, 4);
    agents := PushIf(agents, n.qaAndDevOps, Qa, agentOf, n, 5);
    agents := PushIf(agents, true, Documentation, agentOf, n, 6);
    agents := PushIf(agents, n.qaAndDevOps, DevOps, agentOf, n, 7);
    agents := PushIf(agents, n.research, Research, agentOf, n, 8);
    PushedUpToNonEmpty(n, 9, agentOf);
  }

  /**
   * `analyzeAgents`: the managing agent, then each role whose predicate
   * holds, in the fixed order, then the managing agent's collaborators are
   * overwritten with the ids of all the others. The QA and DevOps flags are
   * the same test in the analyser, so one field carries both.
   */
  method AnalyzeAgents(config: ProjectConfig, mcps: seq<McpServer>) returns (agents: seq<Agent>)
    ensures agents == Roster(config, McpIds(mcps))
  {
    var needsFrontend := config.projectType in {"saas", "website", "mobile-app"};
    var needsBackend := config.projectType in {"saas", "api", "website"};
    var needsData := exists i :: 0 <= i < |config.features| && config.features[i].category == "database";
    var needsSecurity := exists i :: 0 <= i < |config.features| && config.features[i].category == "authentication";
    var needsQaAndDevOps := config.metadata.estimatedComplexity != "simple";
    var needsResearch := config.metadata.estimatedComplexity == "complex" || config.metadata.estimatedComplexity == "enterprise";
    var n := Needs(needsFrontend, needsBackend, needsData, needsSecurity, needsQaAndDevOps, needsResearch);
    assert n == NeedsOf(config);
    agents := PushRoles(n, AgentMaker(McpIds(mcps), AgentProfile));
    agents := agents[0 := agents[0].(collaboratesWith := AgentIds(agents[1..]))];
  }

  // ---------------------------------------------------------------------
  // Task breakdown
  // ---------------------------------------------------------------------

  /** The tasks the breakdown may emit, in the order it considers them. */
  datatype TaskKind = Init | Env | Schema | Migration | Api | Auth | Ui | Integration | Tests | Docs | Ci

  function KindRank(kind: TaskKind): nat {
    match kind
    case Init => 0
    case Env => 1
    case Schema => 2
    case Migration => 3
    case Api => 4
    case Auth => 5
    case Ui => 6
    case Integration => 7
    case Tests => 8
    case Docs => 9
    case Ci => 10
  }

  /** The task kind of a given rank. */
  function KindAt(k: nat): (kind: TaskKind)
    requires k < 11
    ensures KindRank(kind) == k
  {
    if k == 0 then Init else if k == 1 then Env else if k == 2 then Schema else if k == 3 then Migration
    else if k == 4 then Api else if k == 5 then Auth else if k == 6 then Ui else if k == 7 then Integration
    else if k == 8 then Tests else if k == 9 then Docs else Ci
  }

  lemma KindAtRank(kind: TaskKind)
    ensures KindAt(KindRank(kind)) == kind
  {
  }

  /** Which agents the roster holds, as the breakdown tests them with `agents.some(a => a.id === ...)`. */
  datatype Presence = Presence(data: bool, backend: bool, security: bool, frontend: bool, qa: bool, devops: bool)

  /** `agents.some(a => a.id === id)`. */
  predicate HasAgent(agents: seq<Agent>, id: string) {
    exists i :: 0 <= i < |agents| && agents[i].id == id
  }

  lemma HasAgentIds(agents: seq<Agent>, id: string)
    ensures HasAgent(agents, id) <==> id in AgentIds(agents)
  {
    if id in AgentIds(agents) {
      var i :| 0 <= i < |agents| && AgentIds(agents)[i] == id;
    }
  }

  function PresenceOf(agents: seq<Agent>): Presence {
    Presence(HasAgent(agents, "data-agent"), HasAgent(agents, "backend-agent"), HasAgent(agents, "security-agent"),
             HasAgent(agents, "frontend-agent"), HasAgent(agents, "qa-agent"), HasAgent(agents, "devops-agent"))
  }

  /** Whether a task is emitted; initialisation, environment and documentation always are. */
  predicate Wanted(p: Presence, kind: TaskKind) {
    match kind
    case Init => true
    case Env => true
    case Schema => p.data
    case Migration => p.data
    case Api => p.backend
    case Auth => p.security
    case Ui => p.frontend
    case Integration => p.frontend
    case Tests => p.qa
    case Docs => true
    case Ci => p.devops
  }

  /** The agent a task is assigned to. */
  function AssignedTo(kind: TaskKind): string {
    match kind
    case Init => "managing-agent"
    case Env => "managing-agent"
    case Schema => "data-agent"
    case Migration => "data-agent"
    case Api => "backend-agent"
    case Auth => "security-agent"
    case Ui => "frontend-agent"
    case Integration => "frontend-agent"
    case Tests => "qa-agent"
    case Docs => "documentation-agent"
    case Ci => "devops-agent"
  }

  function Hours(kind: TaskKind): int {
    match kind
    case Init => 1
    case Env => 2
    case Schema => 4
    case Migration => 3
    case Api => 8
    case Auth => 6
    case Ui => 10
    case Integration => 6
    case Tests => 8
    case Docs => 4
    case Ci => 5
  }

  /** `task-<n>`. */
  function TaskId(n: nat): string {
    "task-" + NatToString(n)
  }

  /**
   * The dependencies of a kind's task when it is the task at index `i`
   * (whose id is `TaskId(i + 1)`). The migration, integration, API-with-data
   * and authentication-with-backend tasks name their own id, because the
   * counter has already moved past it when the list is built; tests and
   * CI/CD name the task just before them.
   */
  function Deps(kind: TaskKind, i: nat, p: Presence): seq<string> {
    match kind
    case Init => []
    case Env => [TaskId(1)]
    case Schema => [TaskId(2)]
    case Migration => [TaskId(i + 1)]
    case Api => if p.data then [TaskId(i + 1)] else [TaskId(2)]
    case Auth => if p.backend then [TaskId(i + 1)] else [TaskId(2)]
    case Ui => [TaskId(2)]
    case Integration => [TaskId(i + 1)]
    case Tests => [TaskId(i)]
    case Docs => []
    case Ci => [TaskId(i)]
  }

  /** A task's title and description. */
  datatype TaskText = TaskText(title: string, description: string)

  function TaskTexts(kind: TaskKind): TaskText {
    match kind
    case Init => TaskText("Initialize Project Structure", "Create project directories, initialize git, set up package.json")
    case Env => TaskText("Configure Development Environment", "Set up TypeScript, ESLint, Prettier, and other dev tools")
    case Schema => TaskText("Design Database Schema", "Define tables, relationships, and constraints")
    case Migration => TaskText("Implement Database Migrations", "Create migration files and seed data")
    case Api => TaskText("Build API Endpoints", "Implement REST/GraphQL APIs with business logic")
    case Auth => TaskText("Implement Authentication", "Set up user authentication and authorization")
    case Ui => TaskText("Build UI Components", "Create reusable React components and pages")
    case Integration => TaskText("Integrate Frontend with Backend", "Connect UI to API endpoints and handle state")
    case Tests => TaskText("Write Test Suites", "Implement unit, integration, and E2E tests")
    case Docs => TaskText("Write Documentation", "Create README, API docs, and user guides")
    case Ci => TaskText("Set Up CI/CD Pipeline", "Configure GitHub Actions and deployment")
  }

  /** The task of a kind at index `i`; its priority is its kind's rank plus one. */
  function MakeTask(kind: TaskKind, i: nat, p: Presence, text: TaskKind -> TaskText): Task {
    Task(TaskId(i + 1), text(kind).title, text(kind).description, AssignedTo(kind), Deps(kind, i, p), Hours(kind), KindRank(kind) + 1)
  }

  /** The kinds emitted among the first `k`, in order. */
  function KindsUpTo(p: Presence, k: nat): seq<TaskKind>
    requires k <= 11
  {
    if k == 0 then [] else Pick(KindsUpTo(p, k - 1), Wanted(p, KindAt(k - 1)), KindAt(k - 1))
  }

  lemma {:induction false} KindsUpToIn(p: Presence, k: nat, x: TaskKind)
    requires k <= 11
    ensures x in KindsUpTo(p, k) <==> Wanted(p, x) && KindRank(x) < k
  {
    if k > 0 {
      KindsUpToIn(p, k - 1, x);
      KindAtRank(x);
    }
  }

  /** Strictly increasing ranks, all below `bound`. */
  predicate KindsRanked(ks: seq<TaskKind>, bound: nat) {
    && (forall i :: 0 <= i < |ks| ==> KindRank(ks[i]) < bound)
    && (forall i, j :: 0 <= i < j < |ks| ==> KindRank(ks[i]) < KindRank(ks[j]))
  }

  lemma {:induction false} KindsUpToRanked(p: Presence, k: nat)
    requires k <= 11
    ensures KindsRanked(KindsUpTo(p, k), k)
  {
    if k > 0 {
      KindsUpToRanked(p, k - 1);
      var x := KindAt(k - 1);
      assert KindRank(x) == k - 1;
    }
  }

  /** The task of each kind at each index, for a roster's presence flags and a text table. */
  function TaskMaker(p: Presence, text: TaskKind -> TaskText): (TaskKind, nat) -> Task {
    (kind: TaskKind, i: nat) => MakeTask(kind, i, p, text)
  }

  /** The reference list: the task of each emitted kind at its own index. */
  function BuildTasks(kinds: seq<TaskKind>, make: (TaskKind, nat) -> Task): (r: seq<Task>)
    ensures |r| == |kinds|
    ensures forall i :: 0 <= i < |kinds| ==> r[i] == make(kinds[i], i)
  {
    seq(|kinds|, i requires 0 <= i < |kinds| => make(kinds[i], i))
  }

  /** The tasks pushed after considering the first `k` kinds. */
  function TasksUpTo(p: Presence, k: nat, make: (TaskKind, nat) -> Task): seq<Task>
    requires k <= 11
  {
    if k == 0 then []
    else
      var prev := TasksUpTo(p, k - 1, make);
      if Wanted(p, KindAt(k - 1)) then prev + [make(KindAt(k - 1), |prev|)] else prev
  }

  /** The pushes produce the reference list. */
  lemma {:induction false} TasksUpToBuild(p: Presence, k: nat, make: (TaskKind, nat) -> Task)
    requires k <= 11
    ensures TasksUpTo(p, k, make) == BuildTasks(KindsUpTo(p, k), make)
  {
    if k > 0 {
      TasksUpToBuild(p, k - 1, make);
      var ks := KindsUpTo(p, k - 1);
      if Wanted(p, KindAt(k - 1)) {
        assert BuildTasks(ks + [KindAt(k - 1)], make) == BuildTasks(ks, make) + [make(KindAt(k - 1), |ks|)];
      }
    }
  }

  /** The breakdown `generateTaskBreakdown` returns for a roster. */
  function Breakdown(agents: seq<Agent>): seq<Task> {
    TasksUpTo(PresenceOf(agents), 11, TaskMaker(PresenceOf(agents), TaskTexts))
  }

  function Ind(b: bool): nat {
    if b then 1 else 0
  }

  /** How many of the first `k` kinds are emitted. */
  function CountUpTo(p: Presence, k: nat): nat
    requires k <= 11
  {
    if k == 0 then 0 else CountUpTo(p, k - 1) + Ind(Wanted(p, KindAt(k - 1)))
  }

  lemma {:induction false} TasksUpToLength(p: Presence, k: nat, make: (TaskKind, nat) -> Task)
    requires k <= 11
    ensures |TasksUpTo(p, k, make)| == CountUpTo(p, k)
  {
    if k > 0 {
      TasksUpToLength(p, k - 1, make);
    }
  }

  /** There are 3 + 2·data + backend + security + 2·frontend + qa + devops tasks. */
  lemma TaskCount(p: Presence, make: (TaskKind, nat) -> Task)
    ensures |TasksUpTo(p, 11, make)|
         == 3 + 2 * Ind(p.data) + Ind(p.backend) + Ind(p.security) + 2 * Ind(p.frontend) + Ind(p.qa) + Ind(p.devops)
  {
    TasksUpToLength(p, 11, make);
    assert CountUpTo(p, 1) == CountUpTo(p, 0) + 1;
    assert CountUpTo(p, 2) == CountUpTo(p, 1) + 1;
    assert CountUpTo(p, 3) == CountUpTo(p, 2) + Ind(p.data);
    assert CountUpTo(p, 4) == CountUpTo(p, 3) + Ind(p.data);
    assert CountUpTo(p, 5) == CountUpTo(p, 4) + Ind(p.backend);
    assert CountUpTo(p, 6) == CountUpTo(p, 5) + Ind(p.security);
    assert CountUpTo(p, 7) == CountUpTo(p, 6) + Ind(p.frontend);
    assert CountUpTo(p, 8) == CountUpTo(p, 7) + Ind(p.frontend);
    assert CountUpTo(p, 9) == CountUpTo(p, 8) + Ind(p.qa);
    assert CountUpTo(p, 10) == CountUpTo(p, 9) + 1;
    assert CountUpTo(p, 11) == CountUpTo(p, 10) + Ind(p.devops);
  }

  /** Ids `task-1` .. `task-n` in order, strictly increasing priorities between 1 and 11. */
  predicate WellNumbered(t: seq<Task>) {
    && (forall i :: 0 <= i < |t| ==> t[i].id == TaskId(i + 1) && 1 <= t[i].priority <= 11)
    && (forall i, j :: 0 <= i < j < |t| ==> t[i].priority < t[j].priority)
  }

  /** The emitted kinds: ranked, starting with initialisation and environment, at least three. */
  lemma KindsFacts(p: Presence)
    ensures var ks := KindsUpTo(p, 11);
      KindsRanked(ks, 11) && |ks| >= 3 && ks[0] == Init && ks[1] == Env
  {
    KindsUpToRanked(p, 11);
    var ks := KindsUpTo(p, 11);
    KindsUpToIn(p, 11, Init);
    KindsUpToIn(p, 11, Env);
    KindsUpToIn(p, 11, Docs);
    var a :| 0 <= a < |ks| && ks[a] == Init;
    var b :| 0 <= b < |ks| && ks[b] == Env;
    var c :| 0 <= c < |ks| && ks[c] == Docs;
    assert a < b < c;
    assert KindRank(ks[0]) <= KindRank(ks[a]);
    assert KindRank(ks[1]) <= KindRank(ks[b]);
  }

  lemma BuildNumbered(ks: seq<TaskKind>, p: Presence, text: TaskKind -> TaskText)
    requires KindsRanked(ks, 11)
    ensures WellNumbered(BuildTasks(ks, TaskMaker(p, text)))
  {
    var t := BuildTasks(ks, TaskMaker(p, text));
    forall i | 0 <= i < |t|
      ensures t[i].id == TaskId(i + 1) && t[i].priority == KindRank(ks[i]) + 1
    {
      assert t[i] == MakeTask(ks[i], i, p, text);
    }
  }

  lemma BreakdownNumbered(p: Presence, text: TaskKind -> TaskText)
    ensures var t := TasksUpTo(p, 11, TaskMaker(p, text));
      WellNumbered(t) && |t| >= 3 && t[0].priority == 1 && t[1].priority == 2
  {
    var ks := KindsUpTo(p, 11);
    KindsFacts(p);
    TasksUpToBuild(p, 11, TaskMaker(p, text));
    BuildNumbered(ks, p, text);
    var t := BuildTasks(ks, TaskMaker(p, text));
    assert t[0] == MakeTask(Init, 0, p, text);
    assert t[1] == MakeTask(Env, 1, p, text);
  }

  /** Every task is assigned to an agent of the roster, given the roster has the managing and documentation agents. */
  lemma BreakdownAssigned(agents: seq<Agent>, text: TaskKind -> TaskText)
    requires "managing-agent" in AgentIds(agents) && "documentation-agent" in AgentIds(agents)
    ensures var t := TasksUpTo(PresenceOf(agents), 11, TaskMaker(PresenceOf(agents), text));
      forall i :: 0 <= i < |t| ==> t[i].assignedAgent in AgentIds(agents)
  {
    var p := PresenceOf(agents);
    TasksUpToBuild(p, 11, TaskMaker(p, text));
    var ks := KindsUpTo(p, 11);
    forall i | 0 <= i < |ks|
      ensures AssignedTo(ks[i]) in AgentIds(agents)
    {
      KindsUpToIn(p, 11, ks[i]);
      HasAgentIds(agents, AssignedTo(ks[i]));
    }
  }

  /** Which tasks name their own id, for a task whose priority says what it is. */
  predicate SelfDependent(priority: int, p: Presence) {
    priority == 4 || priority == 8 || (priority == 5 && p.data) || (priority == 6 && p.backend)
  }

  /** Distinct numbers give distinct task ids. */
  lemma TaskIdDistinct(m: nat, n: nat)
    requires m != n
    ensures TaskId(m) != TaskId(n)
  {
    if TaskId(m) == TaskId(n) {
      PrefixedInjective("task-", m, n);
    }
  }

  /**
   * The dependencies of the task of a kind at index `i`, when
   * initialisation is exactly the task at index 0 and environment exactly
   * the task at index 1.
   */
  lemma TaskDependencies(kind: TaskKind, i: nat, p: Presence)
    requires (kind == Init <==> i == 0) && (kind == Env <==> i == 1)
    ensures var deps := Deps(kind, i, p);
      && (forall d :: d in deps ==> exists j :: 1 <= j <= i + 1 && d == TaskId(j))
      && (TaskId(i + 1) in deps <==> SelfDependent(KindRank(kind) + 1, p))
      && ((kind == Tests || kind == Ci) ==> i >= 1 && deps == [TaskId(i)])
      && ((kind == Init || kind == Docs) ==> deps == [])
  {
    match kind
    case Init =>
    case Env => TaskIdDistinct(2, 1);
    case Schema => TaskIdDistinct(i + 1, 2);
    case Migration =>
    case Api => TaskIdDistinct(i + 1, 2);
    case Auth => TaskIdDistinct(i + 1, 2);
    case Ui => TaskIdDistinct(i + 1, 2);
    case Integration =>
    case Tests => TaskIdDistinct(i + 1, i);
    case Docs =>
    case Ci => TaskIdDistinct(i + 1, i);
  }

  lemma BuildDependencies(ks: seq<TaskKind>, p: Presence, text: TaskKind -> TaskText)
    requires KindsRanked(ks, 11) && |ks| >= 2 && ks[0] == Init && ks[1] == Env
    ensures var t := BuildTasks(ks, TaskMaker(p, text));
      && (forall i, d :: 0 <= i < |t| && d in t[i].dependencies ==> exists j :: 0 <= j <= i && d == t[j].id)
      && (forall i :: 0 <= i < |t| ==> (t[i].id in t[i].dependencies <==> SelfDependent(t[i].priority, p)))
      && (forall i :: 0 <= i < |t| && (t[i].priority == 9 || t[i].priority == 11) ==>
            i >= 1 && t[i].dependencies == [t[i - 1].id])
      && (forall i :: 0 <= i < |t| && (t[i].priority == 1 || t[i].priority == 10) ==> t[i].dependencies == [])
  {
    var t := BuildTasks(ks, TaskMaker(p, text));
    forall i | 0 <= i < |t|
      ensures forall d :: d in t[i].dependencies ==> exists j :: 0 <= j <= i && d == t[j].id
      ensures t[i].id in t[i].dependencies <==> SelfDependent(t[i].priority, p)
      ensures (t[i].priority == 9 || t[i].priority == 11) ==> i >= 1 && t[i].dependencies == [t[i - 1].id]
      ensures (t[i].priority == 1 || t[i].priority == 10) ==> t[i].dependencies == []
    {
      TaskAtDependencies(ks, p, text, i);
    }
  }

  /** The dependencies of the task at index `i` of a built breakdown. */
  lemma TaskAtDependencies(ks: seq<TaskKind>, p: Presence, text: TaskKind -> TaskText, i: nat)
    requires KindsRanked(ks, 11) && |ks| >= 2 && ks[0] == Init && ks[1] == Env && i < |ks|
    ensures var t := BuildTasks(ks, TaskMaker(p, text));
      && |t| == |ks|
      && (forall d :: d in t[i].dependencies ==> exists j :: 0 <= j <= i && d == t[j].id)
      && (t[i].id in t[i].dependencies <==> SelfDependent(t[i].priority, p))
      && ((t[i].priority == 9 || t[i].priority == 11) ==> i >= 1 && t[i].dependencies == [t[i - 1].id])
      && ((t[i].priority == 1 || t[i].priority == 10) ==> t[i].dependencies == [])
  {
    var t := BuildTasks(ks, TaskMaker(p, text));
    var kind := ks[i];
    assert t[i] == MakeTask(kind, i, p, text);
    if i >= 2 {
      assert KindRank(ks[1]) < KindRank(kind);
    }
    TaskDependencies(kind, i, p);
    forall d | d in t[i].dependencies
      ensures exists j :: 0 <= j <= i && d == t[j].id
    {
      var j :| 1 <= j <= i + 1 && d == TaskId(j);
      assert t[j - 1] == MakeTask(ks[j - 1], j - 1, p, text);
    }
    if i >= 1 {
      assert t[i - 1] == MakeTask(ks[i - 1], i - 1, p, text);
    }
  }

  /**
   * Dependencies never point forward: each is the id of the task itself or
   * of an earlier one. Exactly the migration, integration, API-with-data and
   * authentication-with-backend tasks depend on themselves; tests and CI/CD
   * depend on the task just before them; initialisation and documentation
   * have none.
   */
  lemma BreakdownDependencies(p: Presence, text: TaskKind -> TaskText)
    ensures var t := TasksUpTo(p, 11, TaskMaker(p, text));
      && (forall i, d :: 0 <= i < |t| && d in t[i].dependencies ==> exists j :: 0 <= j <= i && d == t[j].id)
      && (forall i :: 0 <= i < |t| ==> (t[i].id in t[i].dependencies <==> SelfDependent(t[i].priority, p)))
      && (forall i :: 0 <= i < |t| && (t[i].priority == 9 || t[i].priority == 11) ==>
            i >= 1 && t[i].dependencies == [t[i - 1].id])
      && (forall i :: 0 <= i < |t| && (t[i].priority == 1 || t[i].priority == 10) ==> t[i].dependencies == [])
  {
    KindsFacts(p);
    TasksUpToBuild(p, 11, TaskMaker(p, text));
    BuildDependencies(KindsUpTo(p, 11), p, text);
  }

  /**
   * One `if (...) tasks.push({ id: `task-${taskId++}`, ... })` block: the
   * step from `k` kinds considered to `k + 1`. Dependencies are computed
   * from the counter after it has been incremented, as the object literal
   * evaluates them.
   */
  method PushTask(tasks: seq<Task>, taskId: nat, wanted: bool, kind: TaskKind, p: Presence,
                  text: TaskKind -> TaskText, ghost k: nat)
    returns (tasks': seq<Task>, taskId': nat)
    requires k < 11 && kind == KindAt(k) && wanted == Wanted(p, kind)
    requires tasks == TasksUpTo(p, k, TaskMaker(p, text)) && taskId == |tasks| + 1
    ensures tasks' == TasksUpTo(p, k + 1, TaskMaker(p, text)) && taskId' == |tasks'| + 1
  {
    tasks', taskId' := tasks, taskId;
    if wanted {
      var id := TaskId(taskId');
      taskId' := taskId' + 1;
      var deps := match kind
        case Init => []
        case Env => ["task-1"]
        case Schema => ["task-2"]
        case Migration => [TaskId(taskId' - 1)]
        case Api => if p.data then [TaskId(taskId' - 1)] else ["task-2"]
        case Auth => if p.backend then [TaskId(taskId' - 1)] else ["task-2"]
        case Ui => ["task-2"]
        case Integration => [TaskId(taskId' - 1)]
        case Tests => [TaskId(taskId' - 2)]
        case Docs => []
        case Ci => [TaskId(taskId' - 2)];
      assert TaskId(1) == "task-1" && TaskId(2) == "task-2";
      tasks' := tasks' + [Task(id, text(kind).title, text(kind).description, AssignedTo(kind), deps,
                               Hours(kind), KindRank(kind) + 1)];
    }
  }

  /** The two foundation blocks and the data blocks. */
  method PushFoundation(p: Presence, text: TaskKind -> TaskText) returns (tasks: seq<Task>, taskId: nat)
    ensures tasks == TasksUpTo(p, 4, TaskMaker(p, text)) && taskId == |tasks| + 1
  {
    taskId := 1;
    tasks := [];
    tasks, taskId := PushTask(tasks, taskId, true, Init, p, text, 0);
    tasks, taskId := PushTask(tasks, taskId, true, Env, p, text, 1);
    tasks, taskId := PushTask(tasks, taskId, p.data, Schema, p, text, 2);
    tasks, taskId := PushTask(tasks, taskId, p.data, Migration, p, text, 3);
  }

  /** The API, authentication and frontend blocks. */
  method PushFeatures(tasks: seq<Task>, taskId: nat, p: Presence, text: TaskKind -> TaskText)
    returns (tasks': seq<Task>, taskId': nat)
    requires tasks == TasksUpTo(p, 4, TaskMaker(p, text)) && taskId == |tasks| + 1
    ensures tasks' == TasksUpTo(p, 8, TaskMaker(p, text)) && taskId' == |tasks'| + 1
  {
    tasks', taskId' := PushTask(tasks, taskId, p.backend, Api, p, text, 4);
    tasks', taskId' := PushTask(tasks', taskId', p.security, Auth, p, text, 5);
    tasks', taskId' := PushTask(tasks', taskId', p.frontend, Ui, p, text, 6);
    tasks', taskId' := PushTask(tasks', taskId', p.frontend, Integration, p, text, 7);
  }

  /** The testing, documentation and deployment blocks. */
  method PushDelivery(tasks: seq<Task>, taskId: nat, p: Presence, text: TaskKind -> TaskText)
    returns (tasks': seq<Task>)
    requires tasks == TasksUpTo(p, 8, TaskMaker(p, text)) && taskId == |tasks| + 1
    ensures tasks' == TasksUpTo(p, 11, TaskMaker(p, text))
  {
    var id;
    tasks', id := PushTask(tasks, taskId, p.qa, Tests, p, text, 8);
    tasks', id := PushTask(tasks', id, true, Docs, p, text, 9);
    tasks', id := PushTask(tasks', id, p.devops, Ci, p, text, 10);
  }

  /** The eleven task blocks in order, sharing one counter that starts at 1. */
  method PushTasks(p: Presence, text: TaskKind -> TaskText) returns (tasks: seq<Task>)
    ensures tasks == TasksUpTo(p, 11, TaskMaker(p, text))
  {
    var taskId;
    tasks, taskId := PushFoundation(p, text);
    tasks, taskId := PushFeatures(tasks, taskId, p, text);
    tasks := PushDelivery(tasks, taskId, p, text);
  }

  /**
   * `generateTaskBreakdown`: which blocks run depends only on which agent
   * ids the roster holds (the configuration argument is not read).
   */
  method GenerateTaskBreakdown(agents: seq<Agent>) returns (tasks: seq<Task>)
    ensures tasks == Breakdown(agents)
  {
    var p := Presence(HasAgent(agents, "data-agent"), HasAgent(agents, "backend-agent"),
                      HasAgent(agents, "security-agent"), HasAgent(agents, "frontend-agent"),
                      HasAgent(agents, "qa-agent"), HasAgent(agents, "devops-agent"));
    tasks := PushTasks(p, TaskTexts);
  }

  // ---------------------------------------------------------------------
  // Collaboration protocol and the whole analysis
  // ---------------------------------------------------------------------

  /** The `k`-th communication channel of the protocol. */
  function ChannelLine(k: nat): string {
    if k == 0 then "Code comments for implementation details"
    else if k == 1 then "Git commit messages for change descriptions"
    else if k == 2 then "Pull request descriptions for feature explanations"
    else "Documentation for architectural decisions"
  }

  /** The `k`-th review rule of the protocol. */
  function ReviewLine(k: nat): string {
    if k == 0 then "All code must be reviewed by Managing Agent"
    else if k == 1 then "Backend changes reviewed by Security Agent"
    else if k == 2 then "Frontend changes tested by QA Agent"
    else if k == 3 then "Documentation reviewed by Documentation Agent"
    else "No direct commits to main branch"
  }

  /** The `k`-th conflict-resolution rule of the protocol. */
  function ConflictLine(k: nat): string {
    if k == 0 then "Managing Agent makes final decisions"
    else if k == 1 then "Technical debates resolved through proof-of-concept"
    else if k == 2 then "Performance concerns validated with benchmarks"
    else "Security issues have highest priority"
  }

  /** The `k`-th progress-tracking rule of the protocol. */
  function TrackingLine(k: nat): string {
    if k == 0 then "Daily status updates in commit messages"
    else if k == 1 then "Task completion logged in project board"
    else if k == 2 then "Blockers immediately escalated to Managing Agent"
    else "Weekly progress summary by Managing Agent"
  }

  /**
   * `generateCollaborationProtocol`: four fixed lists of 4, 5, 4 and 4
   * lines, whatever the roster.
   */
  function GenerateCollaborationProtocol(agents: seq<Agent>): (p: CollaborationProtocol)
    ensures |p.communicationChannels| == 4 && |p.reviewProcess| == 5
    ensures |p.conflictResolution| == 4 && |p.progressTracking| == 4
    ensures forall k :: 0 <= k < 5 ==> p.reviewProcess[k] == ReviewLine(k)
  {
    CollaborationProtocol(
      seq(4, k requires 0 <= k < 4 => ChannelLine(k)),
      seq(5, k requires 0 <= k < 5 => ReviewLine(k)),
      seq(4, k requires 0 <= k < 4 => ConflictLine(k)),
      seq(4, k requires 0 <= k < 4 => TrackingLine(k)))
  }

  /** A roster with the expected ids holds a role's agent iff the configuration selects the role. */
  lemma RolePresent(config: ProjectConfig, agents: seq<Agent>, role: Role)
    requires AgentIds(agents) == ExpectedRoster(config)
    ensures HasAgent(agents, RoleId(role)) <==> Selected(NeedsOf(config), role)
  {
    ExpectedRosterSpec(config);
    HasAgentIds(agents, RoleId(role));
  }

  /** A roster with the expected ids holds, as the breakdown sees it, exactly the roles the configuration selects. */
  lemma RosterPresence(config: ProjectConfig, agents: seq<Agent>)
    requires AgentIds(agents) == ExpectedRoster(config)
    ensures var n := NeedsOf(config);
      PresenceOf(agents) == Presence(n.data, n.backend, n.security, n.frontend, n.qaAndDevOps, n.qaAndDevOps)
  {
    RolePresent(config, agents, Data);
    RolePresent(config, agents, Backend);
    RolePresent(config, agents, Security);
    RolePresent(config, agents, Frontend);
    RolePresent(config, agents, Qa);
    RolePresent(config, agents, DevOps);
  }

  /**
   * The part of `analyze` that follows the MCP servers: the roster built on
   * their ids, then the task breakdown and the protocol for that roster. The
   * number of tasks follows from the configuration alone, and every task is
   * assigned to an agent of the roster.
   */
  method AnalyzeTeam(config: ProjectConfig, mcps: seq<McpServer>)
    returns (agents: seq<Agent>, tasks: seq<Task>, protocol: CollaborationProtocol)
    ensures agents == Roster(config, McpIds(mcps))
    ensures tasks == Breakdown(agents)
    ensures protocol == GenerateCollaborationProtocol(agents)
    ensures var n := NeedsOf(config);
      |tasks| == 3 + 2 * Ind(n.data) + Ind(n.backend) + Ind(n.security) + 2 * Ind(n.frontend) + 2 * Ind(n.qaAndDevOps)
    ensures forall i :: 0 <= i < |tasks| ==> tasks[i].assignedAgent in AgentIds(agents)
  {
    agents := AnalyzeAgents(config, mcps);
    tasks := GenerateTaskBreakdown(agents);
    protocol := GenerateCollaborationProtocol(agents);

    RosterManaging(config, McpIds(mcps), AgentProfile);
    RosterPresence(config, agents);
    TaskCount(PresenceOf(agents), TaskMaker(PresenceOf(agents), TaskTexts));
    ExpectedRosterSpec(config);
    BreakdownAssigned(agents, TaskTexts);
  }

  /** The result `analyze` produces once the MCP servers are settled, field by field. */
  function AnalysisFor(config: ProjectConfig, mcps: seq<McpServer>): AnalysisResult {
    var agents := Roster(config, McpIds(mcps));
    AnalysisResult(config, mcps, agents, Breakdown(agents), GenerateCollaborationProtocol(agents))
  }

  /**
   * What every analysis holds: the roster has the expected ids, the number
   * of tasks follows from the configuration alone, and every task is
   * assigned to an agent of the roster.
   */
  lemma AnalysisShape(config: ProjectConfig, mcps: seq<McpServer>)
    ensures var a := AnalysisFor(config, mcps);
      && AgentIds(a.requiredAgents) == ExpectedRoster(config)
      && (var n := NeedsOf(config);
          |a.taskBreakdown| == 3 + 2 * Ind(n.data) + Ind(n.backend) + Ind(n.security) + 2 * Ind(n.frontend) + 2 * Ind(n.qaAndDevOps))
      && forall i :: 0 <= i < |a.taskBreakdown| ==> a.taskBreakdown[i].assignedAgent in AgentIds(a.requiredAgents)
  {
    var agents := AnalysisFor(config, mcps).requiredAgents;
    RosterManaging(config, McpIds(mcps), AgentProfile);
    RosterPresence(config, agents);
    TaskCount(PresenceOf(agents), TaskMaker(PresenceOf(agents), TaskTexts));
    ExpectedRosterSpec(config);
    BreakdownAssigned(agents, TaskTexts);
  }

  /** `analyze`: the MCP servers first, then everything built on them. */
  method Analyze(config: ProjectConfig, outcome: RecommendOutcome) returns (result: AnalysisResult)
    ensures result == AnalysisFor(config, McpsOf(outcome))
  {
    var mcps := AnalyzeMcps(outcome);
    var agents, tasks, protocol := AnalyzeTeam(config, mcps);
    result := AnalysisResult(config, mcps, agents, tasks, protocol);
  }
}
