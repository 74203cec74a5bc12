/**
 * `generateMCPConfig`: the `.mcp.json` server table of a generated project.
 * Each known server is added under its key when its id was recommended and
 * the options it needs are given; the agents server is always added. The
 * table is keyed by `ServerKind`, whose `Key` is the JSON key written.
 */
module McpConfig {
  import opened Wrappers
  import opened Strings
  import opened Digits
  import opened Types

  /** The eight servers the generator knows; no other id ever gets an entry. */
  datatype ServerKind = DesktopCommander | GitHub | Supabase | Context7 | Memory | Agents | ChromeDevTools | Ssh

  function Key(k: ServerKind): string {
    match k
    case DesktopCommander => "desktop-commander"
    case GitHub => "github"
    case Supabase => "supabase"
    case Context7 => "context7"
    case Memory => "memory"
    case Agents => "agents"
    case ChromeDevTools => "chrome-devtools"
    case Ssh => "ssh"
  }

  /** The JSON keys are pairwise distinct, so the table keyed by kind is the table keyed by name. */
  lemma KeyInjective(a: ServerKind, b: ServerKind)
    requires Key(a) == Key(b)
    ensures a == b
  {
    match a
    case DesktopCommander => assert |Key(a)| == 17;
    case GitHub => assert Key(a)[0] == 'g' && |Key(a)| == 6;
    case Supabase => assert Key(a)[0] == 's' && |Key(a)| == 8;
    case Context7 => assert Key(a)[0] == 'c' && |Key(a)| == 8;
    case Memory => assert Key(a)[0] == 'm';
    case Agents => assert Key(a)[0] == 'a';
    case ChromeDevTools => assert |Key(a)| == 15;
    case Ssh => assert |Key(a)| == 3;
  }

  /** A server entry: the command, its arguments and, for some, an environment. */
  datatype ServerConfig = ServerConfig(command: string, args: seq<string>, env: Option<map<string, string>>)

  /** The optional credentials and connection details. `sshPort` is a number; 0 is falsy. */
  datatype Options = Options(
    githubToken: Option<string>,
    supabaseProjectRef: Option<string>,
    supabaseAccessToken: Option<string>,
    sshHost: Option<string>,
    sshPort: Option<int>,
    sshUser: Option<string>,
    sshKeyPath: Option<string>)

  predicate PortGiven(o: Options) { o.sshPort.Some? && o.sshPort.value != 0 }

  /** `new Set(mcpServers.map(mcp => mcp.id))`. */
  function IdSet(mcps: seq<McpServer>): (ids: set<string>)
  {
    set i | 0 <= i < |mcps| :: mcps[i].id
  }

  /** `mcpIds.has(id)`. */
  predicate Has(mcps: seq<McpServer>, id: string) { id in IdSet(mcps) }

  // ---------------------------------------------------------------------
  // The entries
  // ---------------------------------------------------------------------

  function NpxArgs(package: string): seq<string> { ["/c", "npx", "-y", package] }

  function DesktopCommanderConfig(projectPath: string): ServerConfig {
    ServerConfig("cmd", NpxArgs("@wonderwhy-er/desktop-commander"), Some(map["ALLOWED_DIRECTORIES" := projectPath]))
  }

  function GitHubConfig(token: string): ServerConfig {
    ServerConfig("cmd", NpxArgs("@modelcontextprotocol/server-github"), Some(map["GITHUB_PERSONAL_ACCESS_TOKEN" := token]))
  }

  function SupabaseConfig(projectRef: string, accessToken: string): ServerConfig {
    ServerConfig("cmd", NpxArgs("@supabase/mcp-server-supabase") + ["--project-ref=" + projectRef],
                 Some(map["SUPABASE_ACCESS_TOKEN" := accessToken]))
  }

  function Context7Config(): ServerConfig { ServerConfig("cmd", NpxArgs("@upstash/context7-mcp"), None) }

  function MemoryConfig(): ServerConfig { ServerConfig("cmd", NpxArgs("@modelcontextprotocol/server-memory"), None) }

  function ChromeDevToolsConfig(): ServerConfig { ServerConfig("cmd", NpxArgs("chrome-devtools-mcp"), None) }

  const AgentsServerScript := "C:\\Users\\bjorn\\agents-mcp-server\\index.js"

  function AgentsConfig(agentsDir: string): ServerConfig {
    ServerConfig("node", [AgentsServerScript], Some(map["AGENTS_DIR" := agentsDir]))
  }

  /** `replace(/\\/g, '\\\\')`: every backslash doubled. */
  function EscapeBackslashes(s: string): (r: string)
    ensures |r| >= |s|
    decreases |s|
  {
    if s == [] then []
    else (if s[0] == '\\' then "\\\\" else [s[0]]) + EscapeBackslashes(s[1..])
  }

  /** The JSON-style reading of a doubled backslash as one. */
  function UnescapeBackslashes(s: string): (r: string)
    decreases |s|
  {
    if s == [] then []
    else if |s| >= 2 && s[0] == '\\' && s[1] == '\\' then "\\" + UnescapeBackslashes(s[2..])
    else [s[0]] + UnescapeBackslashes(s[1..])
  }

  /** Doubling the backslashes loses nothing: reading them back gives the path. */
  lemma {:induction false} EscapeRoundTrip(s: string)
    ensures UnescapeBackslashes(EscapeBackslashes(s)) == s
    decreases |s|
  {
    if s != [] {
      EscapeRoundTrip(s[1..]);
      var e := EscapeBackslashes(s);
      if s[0] == '\\' {
        assert e == "\\\\" + EscapeBackslashes(s[1..]);
        assert e[2..] == EscapeBackslashes(s[1..]);
      } else {
        assert e == [s[0]] + EscapeBackslashes(s[1..]);
        assert e[1..] == EscapeBackslashes(s[1..]);
      }
    }
  }

  /** `path.join(projectPath, '.claude', 'agents')` with the platform separator, backslashes doubled. */
  function AgentsDir(projectPath: string, sep: char): string {
    EscapeBackslashes(Join([projectPath, ".claude", "agents"], [sep]))
  }

  function SshBaseArgs(host: string, user: string): seq<string> {
    ["/c", "npx", "-y", "ssh-mcp", "--", "--host=" + host, "--user=" + user]
  }

  /** The ssh arguments: the fixed part, then `--port` and `--key` when given. */
  function SshArgs(o: Options): seq<string> {
    SshBaseArgs(o.sshHost.GetOr(""), o.sshUser.GetOr(""))
      + (if PortGiven(o) then ["--port=" + IntToString(o.sshPort.value)] else [])
      + (if Truthy(o.sshKeyPath) then ["--key=" + o.sshKeyPath.value] else [])
  }

  /** The ssh arguments: the fixed prefix, host, user, then the port and the key when given. */
  lemma SshArgsShape(o: Options)
    requires o.sshHost.Some? && o.sshUser.Some?
    ensures var args := SshArgs(o);
      && args[..7] == ["/c", "npx", "-y", "ssh-mcp", "--", "--host=" + o.sshHost.value, "--user=" + o.sshUser.value]
      && |args| == 7 + (if PortGiven(o) then 1 else 0) + (if Truthy(o.sshKeyPath) then 1 else 0)
      && (PortGiven(o) ==> args[7] == "--port=" + IntToString(o.sshPort.value))
      && (Truthy(o.sshKeyPath) ==> args[|args| - 1] == "--key=" + o.sshKeyPath.value)
  {
  }

  // ---------------------------------------------------------------------
  // The table
  // ---------------------------------------------------------------------

  /** The `mcpServers` object, keyed by the server whose `Key` is the JSON key. */
  type Table = map<ServerKind, ServerConfig>

  /** `if (present) mcpServers[Key(k)] = v`: one block of the generator. */
  function PutIf(m: Table, present: bool, k: ServerKind, v: ServerConfig): Table {
    if present then m[k := v] else m
  }

  lemma PutIfLookup(m: Table, present: bool, k: ServerKind, v: ServerConfig, j: ServerKind)
    ensures j in PutIf(m, present, k, v) <==> (present && j == k) || j in m
    ensures j in PutIf(m, present, k, v) ==> PutIf(m, present, k, v)[j] == if present && j == k then v else m[j]
  {
  }

  /** The condition of each block: the id was recommended and the options the entry needs are given. */
  function Wanted(k: ServerKind, ids: set<string>, o: Options): bool {
    match k
    case GitHub => Key(GitHub) in ids && Truthy(o.githubToken)
    case Supabase => Key(Supabase) in ids && Truthy(o.supabaseProjectRef) && Truthy(o.supabaseAccessToken)
    case Agents => true
    case Ssh => Key(Ssh) in ids && Truthy(o.sshHost) && Truthy(o.sshUser)
    case _ => Key(k) in ids
  }

  /** The entry each block writes. */
  function Entry(k: ServerKind, projectPath: string, o: Options, sep: char): ServerConfig {
    match k
    case DesktopCommander => DesktopCommanderConfig(projectPath)
    case GitHub => GitHubConfig(o.githubToken.GetOr(""))
    case Supabase => SupabaseConfig(o.supabaseProjectRef.GetOr(""), o.supabaseAccessToken.GetOr(""))
    case Context7 => Context7Config()
    case Memory => MemoryConfig()
    case Agents => AgentsConfig(AgentsDir(projectPath, sep))
    case ChromeDevTools => ChromeDevToolsConfig()
    case Ssh => ServerConfig("cmd", SshArgs(o), None)
  }

  /** The blocks with credentials: desktop-commander, github, supabase. */
  function CredentialEntries(ids: set<string>, projectPath: string, o: Options): Table {
    var t1 := PutIf(map[], Key(DesktopCommander) in ids, DesktopCommander, DesktopCommanderConfig(projectPath));
    var t2 := PutIf(t1, Key(GitHub) in ids && Truthy(o.githubToken), GitHub, GitHubConfig(o.githubToken.GetOr("")));
    PutIf(t2, Key(Supabase) in ids && Truthy(o.supabaseProjectRef) && Truthy(o.supabaseAccessToken),
          Supabase, SupabaseConfig(o.supabaseProjectRef.GetOr(""), o.supabaseAccessToken.GetOr("")))
  }

  /** The documentation and memory blocks: context7, memory. */
  function LibraryEntries(m: Table, ids: set<string>, o: Options): Table {
    var t4 := PutIf(m, Wanted(Context7, ids, o), Context7, Context7Config());
    PutIf(t4, Wanted(Memory, ids, o), Memory, MemoryConfig())
  }

  /** The project blocks: agents (always), chrome-devtools, ssh. */
  function ProjectEntries(m: Table, ids: set<string>, projectPath: string, o: Options, sep: char): Table {
    var t6 := m[Agents := AgentsConfig(AgentsDir(projectPath, sep))];
    var t7 := PutIf(t6, Wanted(ChromeDevTools, ids, o), ChromeDevTools, ChromeDevToolsConfig());
    PutIf(t7, Wanted(Ssh, ids, o), Ssh, ServerConfig("cmd", SshArgs(o), None))
  }

  /** The whole `mcpServers` object, block by block in the generator's order. */
  function McpConfigOf(mcps: seq<McpServer>, projectPath: string, o: Options, sep: char): Table {
    TableFor(IdSet(mcps), projectPath, o, sep)
  }

  function TableFor(ids: set<string>, projectPath: string, o: Options, sep: char): Table {
    ProjectEntries(LibraryEntries(CredentialEntries(ids, projectPath, o), ids, o), ids, projectPath, o, sep)
  }

  predicate InCredentials(k: ServerKind) { k == DesktopCommander || k == GitHub || k == Supabase }

  predicate InLibrary(k: ServerKind) { k == Context7 || k == Memory }

  lemma {:induction false} CredentialLookup(ids: set<string>, projectPath: string, o: Options, sep: char, k: ServerKind)
    ensures var t := CredentialEntries(ids, projectPath, o);
      && (k in t <==> InCredentials(k) && Wanted(k, ids, o))
      && (k in t ==> t[k] == Entry(k, projectPath, o, sep))
  {
    var t1 := PutIf(map[], Key(DesktopCommander) in ids, DesktopCommander, DesktopCommanderConfig(projectPath));
    var t2 := PutIf(t1, Key(GitHub) in ids && Truthy(o.githubToken), GitHub, GitHubConfig(o.githubToken.GetOr("")));
    PutIfLookup(map[], Key(DesktopCommander) in ids, DesktopCommander, DesktopCommanderConfig(projectPath), k);
    PutIfLookup(t1, Key(GitHub) in ids && Truthy(o.githubToken), GitHub, GitHubConfig(o.githubToken.GetOr("")), k);
    PutIfLookup(t2, Key(Supabase) in ids && Truthy(o.supabaseProjectRef) && Truthy(o.supabaseAccessToken),
                Supabase, SupabaseConfig(o.supabaseProjectRef.GetOr(""), o.supabaseAccessToken.GetOr("")), k);
  }

  function LibraryEntry(k: ServerKind): ServerConfig {
    if k == Context7 then Context7Config() else MemoryConfig()
  }

  lemma {:induction false} LibraryLookup(m: Table, ids: set<string>, o: Options, k: ServerKind)
    ensures var t := LibraryEntries(m, ids, o);
      && (k in t <==> (InLibrary(k) && Wanted(k, ids, o)) || k in m)
      && (k in t ==> t[k] == if InLibrary(k) && Wanted(k, ids, o) then LibraryEntry(k) else m[k])
  {
    var t4 := PutIf(m, Wanted(Context7, ids, o), Context7, Context7Config());
    PutIfLookup(m, Wanted(Context7, ids, o), Context7, Context7Config(), k);
    PutIfLookup(t4, Wanted(Memory, ids, o), Memory, MemoryConfig(), k);
  }

  lemma {:induction false} ProjectLookup(m: Table, ids: set<string>, projectPath: string, o: Options, sep: char, k: ServerKind)
    ensures var t := ProjectEntries(m, ids, projectPath, o, sep);
      && (k in t <==> (!InCredentials(k) && !InLibrary(k) && Wanted(k, ids, o)) || k in m)
      && (k in t ==> t[k] == if !InCredentials(k) && !InLibrary(k) && Wanted(k, ids, o) then Entry(k, projectPath, o, sep) else m[k])
  {
    var t6 := m[Agents := AgentsConfig(AgentsDir(projectPath, sep))];
    var t7 := PutIf(t6, Wanted(ChromeDevTools, ids, o), ChromeDevTools, ChromeDevToolsConfig());
    PutIfLookup(t6, Wanted(ChromeDevTools, ids, o), ChromeDevTools, ChromeDevToolsConfig(), k);
    PutIfLookup(t7, Wanted(Ssh, ids, o), Ssh, ServerConfig("cmd", SshArgs(o), None), k);
  }

  /**
   * Every key of the object is there exactly when its block's condition holds,
   * and holds exactly the entry that block writes: the agents server always,
   * every other server only for a recommended id with its options given.
   */
  lemma McpConfigLookup(mcps: seq<McpServer>, projectPath: string, o: Options, sep: char, k: ServerKind)
    ensures var t := McpConfigOf(mcps, projectPath, o, sep);
      && (k in t <==> Wanted(k, IdSet(mcps), o))
      && (k in t ==> t[k] == Entry(k, projectPath, o, sep))
  {
    TableLookup(IdSet(mcps), projectPath, o, sep, k);
  }

  lemma {:induction false} TableLookup(ids: set<string>, projectPath: string, o: Options, sep: char, k: ServerKind)
    ensures var t := TableFor(ids, projectPath, o, sep);
      && (k in t <==> Wanted(k, ids, o))
      && (k in t ==> t[k] == Entry(k, projectPath, o, sep))
  {
    var c := CredentialEntries(ids, projectPath, o);
    var l := LibraryEntries(c, ids, o);
    CredentialLookup(ids, projectPath, o, sep, k);
    LibraryLookup(c, ids, o, k);
    ProjectLookup(l, ids, projectPath, o, sep, k);
  }

  /** The agents entry is always written, with `node` and the escaped agents folder. */
  lemma AgentsAlwaysPresent(mcps: seq<McpServer>, projectPath: string, o: Options, sep: char)
    ensures var t := McpConfigOf(mcps, projectPath, o, sep);
      && Agents in t
      && t[Agents].command == "node"
      && t[Agents].env == Some(map["AGENTS_DIR" := AgentsDir(projectPath, sep)])
  {
    McpConfigLookup(mcps, projectPath, o, sep, Agents);
  }

  lemma IdSetAppend(mcps: seq<McpServer>, extra: McpServer)
    ensures IdSet(mcps + [extra]) == IdSet(mcps) + {extra.id}
  {
    forall id | id in IdSet(mcps + [extra]) ensures id in IdSet(mcps) + {extra.id} {
      var i :| 0 <= i < |mcps + [extra]| && (mcps + [extra])[i].id == id;
      if i < |mcps| { assert mcps[i].id == id; }
    }
    forall id | id in IdSet(mcps) ensures id in IdSet(mcps + [extra]) {
      var i :| 0 <= i < |mcps| && mcps[i].id == id;
      assert (mcps + [extra])[i].id == id;
    }
    assert (mcps + [extra])[|mcps|].id == extra.id;
  }

  lemma WantedIgnoresUnknown(ids: set<string>, id: string, o: Options, k: ServerKind)
    requires Key(k) != id
    ensures Wanted(k, ids + {id}, o) == Wanted(k, ids, o)
  {
  }

  /** An id that is no server's key (airtable, n8n, ...) leaves every entry of the object as it was. */
  lemma UnknownIdIgnored(mcps: seq<McpServer>, extra: McpServer, projectPath: string, o: Options, sep: char, k: ServerKind)
    requires forall j :: Key(j) != extra.id
    ensures var a, b := McpConfigOf(mcps + [extra], projectPath, o, sep), McpConfigOf(mcps, projectPath, o, sep);
      (k in a <==> k in b) && (k in a ==> a[k] == b[k])
  {
    IdSetAppend(mcps, extra);
    var ids := IdSet(mcps);
    WantedIgnoresUnknown(ids, extra.id, o, k);
    TableLookup(ids + {extra.id}, projectPath, o, sep, k);
    TableLookup(ids, projectPath, o, sep, k);
  }

  // ---------------------------------------------------------------------
  // The generator
  // ---------------------------------------------------------------------

  /** The ssh argument list: the fixed part, then `--port` and `--key` pushed when given. */
  method BuildSshArgs(o: Options) returns (sshArgs: seq<string>)
    requires o.sshHost.Some? && o.sshUser.Some?
    ensures sshArgs == SshArgs(o)
  {
    sshArgs := SshBaseArgs(o.sshHost.value, o.sshUser.value);
    if PortGiven(o) {
      sshArgs := sshArgs + ["--port=" + IntToString(o.sshPort.value)];
    }
    if Truthy(o.sshKeyPath) {
      sshArgs := sshArgs + ["--key=" + o.sshKeyPath.value];
    }
  }

  /** `generateMCPConfig`, one method per run of blocks. */
  method GenerateMcpConfig(mcps: seq<McpServer>, projectPath: string, o: Options, sep: char)
    returns (servers: Table)
    ensures servers == McpConfigOf(mcps, projectPath, o, sep)
  {
    var ids := IdSet(mcps);
    servers := AddCredentialServers(ids, projectPath, o);
    servers := AddLibraryServers(servers, ids, o);
    servers := AddProjectServers(servers, ids, projectPath, o, sep);
  }

  method AddCredentialServers(ids: set<string>, projectPath: string, o: Options) returns (servers: Table)
    ensures servers == CredentialEntries(ids, projectPath, o)
  {
    servers := map[];
    if Key(DesktopCommander) in ids {
      servers := servers[DesktopCommander := DesktopCommanderConfig(projectPath)];
    }
    if Key(GitHub) in ids && Truthy(o.githubToken) {
      servers := servers[GitHub := GitHubConfig(o.githubToken.value)];
    }
    if Key(Supabase) in ids && Truthy(o.supabaseProjectRef) && Truthy(o.supabaseAccessToken) {
      servers := servers[Supabase := SupabaseConfig(o.supabaseProjectRef.value, o.supabaseAccessToken.value)];
    }
  }

  method AddLibraryServers(m: Table, ids: set<string>, o: Options) returns (servers: Table)
    ensures servers == LibraryEntries(m, ids, o)
  {
    servers := m;
    if Key(Context7) in ids {
      servers := servers[Context7 := Context7Config()];
    }
    if Key(Memory) in ids {
      servers := servers[Memory := MemoryConfig()];
    }
  }

  method AddProjectServers(m: Table, ids: set<string>, projectPath: string, o: Options, sep: char) returns (servers: Table)
    ensures servers == ProjectEntries(m, ids, projectPath, o, sep)
  {
    servers := m;
    var agentsDir := AgentsDir(projectPath, sep);
    servers := servers[Agents := AgentsConfig(agentsDir)];
    if Key(ChromeDevTools) in ids {
      servers := servers[ChromeDevTools := ChromeDevToolsConfig()];
    }
    if Key(Ssh) in ids && Truthy(o.sshHost) && Truthy(o.sshUser) {
      var sshArgs := BuildSshArgs(o);
      servers := servers[Ssh := ServerConfig("cmd", sshArgs, None)];
    }
  }
}
