/**
 * `PromptGenerator`: turns an analysis result into the Markdown prompt and
 * its metadata. The prompt is modelled by its structure: the seven sections
 * in order (header, project context, MCP servers, agents, task breakdown,
 * collaboration protocol, footer), each holding the values it renders;
 * `markdown` joins their renderings with `Separator`.
 */
module PromptGenerator {
  import opened Wrappers
  import opened Seqs
  import opened Strings
  import opened Types

  /** What `buildMarkdown` joins the sections with. */
  const Separator := "\n\n---\n\n"

  /** What an agent without collaborators shows under "Collaborates With". */
  const WorksIndependently := "Works independently"

  /** `- **name** (category)` in the project context. */
  datatype FeatureLine = FeatureLine(name: string, category: string)

  /** `**Frontend:** a, b` and its siblings. */
  datatype TechLine = TechLine(title: string, items: seq<string>)

  /** One `### name` block of the MCP section. */
  datatype McpBlock = McpBlock(name: string, id: string, description: string, capabilities: seq<string>, useCases: seq<string>)

  /** One `### n. name emoji` block of the agents section; the emoji renders `priority`. */
  datatype AgentBlock = AgentBlock(
    number: nat,
    name: string,
    priority: Priority,
    role: string,
    responsibilities: seq<string>,
    mcpAccess: seq<string>,
    collaborators: seq<string>)

  /** One `### heading` block of the task breakdown, with its tasks in breakdown order. */
  datatype TaskGroup = TaskGroup(heading: string, tasks: seq<Task>)

  datatype Section =
    | Header(name: string, projectType: string, complexity: string, duration: string, teamSize: int, generatedAt: nat)
    | Context(description: string, features: seq<FeatureLine>, techStack: seq<TechLine>)
    | McpSection(mcps: seq<McpBlock>)
    | AgentsSection(agentCount: nat, agents: seq<AgentBlock>)
    | TaskSection(totalTasks: nat, totalHours: int, groups: seq<TaskGroup>)
    | ProtocolSection(protocol: CollaborationProtocol)
    | Footer

  datatype PromptMetadata = PromptMetadata(projectName: string, totalAgents: nat, totalMcps: nat, totalTasks: nat, generatedAt: nat)

  /** `GeneratedPrompt`: the sections `markdown` is made of, and the metadata. */
  datatype GeneratedPrompt = GeneratedPrompt(markdown: seq<Section>, metadata: PromptMetadata)

  // ---------------------------------------------------------------------
  // Header, context, protocol and footer (template expressions)
  // ---------------------------------------------------------------------

  /** `buildHeader`; `now` is the clock's value, printed with `toISOString`. */
  function HeaderOf(analysis: AnalysisResult, now: nat): (s: Section)
    ensures s.Header? && s.name == analysis.project.name
    ensures s.projectType == UpperStr(analysis.project.projectType)
  {
    var p := analysis.project;
    Header(p.name, UpperStr(p.projectType), p.metadata.estimatedComplexity, p.metadata.estimatedDuration,
           p.metadata.teamSize, now)
  }

  /** A tech-stack line is printed only when its list is present and non-empty (`list?.length`). */
  function TechLineIf(title: string, list: Option<seq<string>>): (r: seq<TechLine>)
    ensures |r| <= 1
    ensures |r| == 1 <==> list.Some? && |list.value| > 0
    ensures |r| == 1 ==> r[0] == TechLine(title, list.value)
  {
    if list.Some? && |list.value| > 0 then [TechLine(title, list.value)] else []
  }

  function TechLines(ts: TechStack): (r: seq<TechLine>)
    ensures |r| <= 3
  {
    TechLineIf("Frontend", ts.frontend) + TechLineIf("Backend", ts.backend) + TechLineIf("Database", ts.database)
  }

  /** `buildProjectContext`: the description, one line per feature, then the non-empty stacks. */
  function ContextOf(analysis: AnalysisResult): (s: Section)
    ensures s.Context? && |s.features| == |analysis.project.features|
    ensures forall i :: 0 <= i < |s.features| ==>
      s.features[i] == FeatureLine(analysis.project.features[i].name, analysis.project.features[i].category)
  {
    var p := analysis.project;
    Context(p.description,
            seq(|p.features|, i requires 0 <= i < |p.features| => FeatureLine(p.features[i].name, p.features[i].category)),
            TechLines(p.techStack))
  }

  // ---------------------------------------------------------------------
  // MCP section
  // ---------------------------------------------------------------------

  function McpBlockOf(m: McpServer): McpBlock {
    McpBlock(m.name, m.id, m.description, m.capabilities, m.useCases)
  }

  /** One block per recommended server, in list order. */
  function McpBlocks(mcps: seq<McpServer>): (r: seq<McpBlock>)
    ensures |r| == |mcps|
    ensures forall i :: 0 <= i < |r| ==> r[i].id == mcps[i].id && r[i].name == mcps[i].name
  {
    seq(|mcps|, i requires 0 <= i < |mcps| => McpBlockOf(mcps[i]))
  }

  /** `buildMCPSection`: the `forEach` appending one block per server. */
  method BuildMcpSection(analysis: AnalysisResult) returns (section: Section)
    ensures section == McpSection(McpBlocks(analysis.recommendedMcps))
  {
    var mcps := analysis.recommendedMcps;
    var blocks: seq<McpBlock> := [];
    for i := 0 to |mcps|
      invariant blocks == McpBlocks(mcps[..i])
    {
      blocks := blocks + [McpBlockOf(mcps[i])];
    }
    assert mcps[..|mcps|] == mcps;
    section := McpSection(blocks);
  }

  // ---------------------------------------------------------------------
  // Agents section
  // ---------------------------------------------------------------------

  /** The "Collaborates With" list: the ids, or the single note when there are none. */
  function CollaboratorLines(ids: seq<string>): (r: seq<string>)
    ensures ids == [] ==> r == [WorksIndependently]
    ensures ids != [] ==> r == ids
  {
    if |ids| > 0 then ids else [WorksIndependently]
  }

  function AgentBlockOf(agent: Agent, index: nat): AgentBlock {
    AgentBlock(index + 1, agent.name, agent.priority, agent.role, agent.responsibilities, agent.mcpAccess,
               CollaboratorLines(agent.collaboratesWith))
  }

  /** Agents numbered from 1 in roster order; an agent without collaborators works independently. */
  function AgentBlocks(agents: seq<Agent>): (r: seq<AgentBlock>)
    ensures |r| == |agents|
    ensures forall i :: 0 <= i < |r| ==> r[i].number == i + 1 && r[i].name == agents[i].name
    ensures forall i :: 0 <= i < |r| ==>
      r[i].collaborators == if agents[i].collaboratesWith == [] then [WorksIndependently] else agents[i].collaboratesWith
  {
    seq(|agents|, i requires 0 <= i < |agents| => AgentBlockOf(agents[i], i))
  }

  /** `buildAgentsSection`: the agent count, then the `forEach((agent, index) => ...)` blocks. */
  method BuildAgentsSection(analysis: AnalysisResult) returns (section: Section)
    ensures section == AgentsSection(|analysis.requiredAgents|, AgentBlocks(analysis.requiredAgents))
  {
    var agents := analysis.requiredAgents;
    var blocks: seq<AgentBlock> := [];
    for i := 0 to |agents|
      invariant blocks == AgentBlocks(agents[..i])
    {
      blocks := blocks + [AgentBlockOf(agents[i], i)];
    }
    assert agents[..|agents|] == agents;
    section := AgentsSection(|agents|, blocks);
  }

  // ---------------------------------------------------------------------
  // Task breakdown: grouping by agent
  // ---------------------------------------------------------------------

  /** A `Map<string, Task[]>`: its keys in insertion order, and its entries. */
  datatype Grouping = Grouping(keys: seq<string>, groups: map<string, seq<Task>>)

  function AssignedIds(tasks: seq<Task>): (r: seq<string>)
    ensures |r| == |tasks|
    ensures forall i :: 0 <= i < |tasks| ==> r[i] == tasks[i].assignedAgent
  {
    seq(|tasks|, i requires 0 <= i < |tasks| => tasks[i].assignedAgent)
  }

  /** One step of the `forEach`: a new agent gets a group of its own, after the others. */
  function AddToGroup(g: Grouping, t: Task): Grouping {
    var a := t.assignedAgent;
    if a in g.groups then Grouping(g.keys, g.groups[a := g.groups[a] + [t]])
    else Grouping(g.keys + [a], g.groups[a := [t]])
  }

  /** The map after the `forEach` over `tasks`. */
  function Grouped(tasks: seq<Task>): Grouping
    decreases |tasks|
  {
    if tasks == [] then Grouping([], map[]) else AddToGroup(Grouped(tasks[..|tasks| - 1]), tasks[|tasks| - 1])
  }

  /** The tasks assigned to `id`, in breakdown order. */
  function TasksFor(tasks: seq<Task>, id: string): (r: seq<Task>)
    ensures forall x :: x in r ==> x in tasks && x.assignedAgent == id
    ensures forall i :: 0 <= i < |tasks| && tasks[i].assignedAgent == id ==> tasks[i] in r
    decreases |tasks|
  {
    if tasks == [] then []
    else
      var t := tasks[|tasks| - 1];
      TasksFor(tasks[..|tasks| - 1], id) + (if t.assignedAgent == id then [t] else [])
  }

  lemma TasksForAbsent(tasks: seq<Task>, id: string)
    requires id !in AssignedIds(tasks)
    ensures TasksFor(tasks, id) == []
  {
  }

  /** The groups' keys: one per distinct assigned agent, and the map holds exactly those. */
  lemma {:induction false} GroupedKeys(tasks: seq<Task>)
    ensures var g := Grouped(tasks);
      && Distinct(g.keys)
      && (forall k :: k in g.groups <==> k in g.keys)
      && (forall k :: k in g.keys <==> k in AssignedIds(tasks))
    decreases |tasks|
  {
    if tasks != [] {
      var pre := tasks[..|tasks| - 1];
      GroupedKeys(pre);
      assert AssignedIds(tasks) == AssignedIds(pre) + [tasks[|tasks| - 1].assignedAgent];
    }
  }

  /** The groups come in order of each agent's first task. */
  lemma {:induction false} GroupedOrder(tasks: seq<Task>)
    ensures forall k :: k in Grouped(tasks).keys ==> k in AssignedIds(tasks)
    ensures OrderedByFirst(Grouped(tasks).keys, AssignedIds(tasks))
    decreases |tasks|
  {
    GroupedKeys(tasks);
    if tasks != [] {
      var pre := tasks[..|tasks| - 1];
      var a := tasks[|tasks| - 1].assignedAgent;
      GroupedOrder(pre);
      GroupedKeys(pre);
      assert AssignedIds(tasks) == AssignedIds(pre) + [a];
      OrderSnoc(Grouped(pre).keys, AssignedIds(pre), a);
    }
  }

  /** Each group holds exactly its agent's tasks, in breakdown order. */
  lemma {:induction false} GroupedMembers(tasks: seq<Task>)
    ensures forall k :: k in Grouped(tasks).groups ==> Grouped(tasks).groups[k] == TasksFor(tasks, k)
    decreases |tasks|
  {
    if tasks != [] {
      var pre := tasks[..|tasks| - 1];
      var t := tasks[|tasks| - 1];
      GroupedMembers(pre);
      GroupedKeys(pre);
      var prev := Grouped(pre);
      var g := Grouped(tasks);
      assert g == AddToGroup(prev, t);
      forall k | k in g.groups
        ensures g.groups[k] == TasksFor(tasks, k)
      {
        assert TasksFor(tasks, k) == TasksFor(pre, k) + (if t.assignedAgent == k then [t] else []);
        if k != t.assignedAgent {
          assert g.groups[k] == prev.groups[k];
        } else if k !in prev.groups {
          TasksForAbsent(pre, k);
        }
      }
    }
  }

  /** Every task appears in exactly one group: its own agent's. */
  lemma TaskInOneGroup(tasks: seq<Task>, i: nat)
    requires i < |tasks|
    ensures var g := Grouped(tasks);
      && tasks[i].assignedAgent in g.groups
      && tasks[i] in g.groups[tasks[i].assignedAgent]
      && forall k :: k in g.groups && k != tasks[i].assignedAgent ==> tasks[i] !in g.groups[k]
  {
    GroupedKeys(tasks);
    GroupedMembers(tasks);
  }

  /** `tasksByAgent.forEach(...)` filling the map in place. */
  method GroupByAgent(tasks: seq<Task>) returns (g: Grouping)
    ensures g == Grouped(tasks)
  {
    var keys: seq<string> := [];
    var groups: map<string, seq<Task>> := map[];
    for i := 0 to |tasks|
      invariant Grouping(keys, groups) == Grouped(tasks[..i])
    {
      assert tasks[..i + 1][..i] == tasks[..i];
      ghost var before := Grouping(keys, groups);
      var t := tasks[i];
      if t.assignedAgent !in groups {
        keys := keys + [t.assignedAgent];
        groups := groups[t.assignedAgent := []];
        assert [] + [t] == [t];
      }
      groups := groups[t.assignedAgent := groups[t.assignedAgent] + [t]];
      assert Grouping(keys, groups) == AddToGroup(before, t);
    }
    assert tasks[..|tasks|] == tasks;
    g := Grouping(keys, groups);
  }

  // ---------------------------------------------------------------------
  // Task breakdown: totals
  // ---------------------------------------------------------------------

  function Hours(t: Task): int { t.estimatedHours }

  function One(t: Task): int { 1 }

  /** `tasks.reduce((sum, t) => sum + w(t), 0)`. */
  function TotalOf(tasks: seq<Task>, w: Task -> int): int
    decreases |tasks|
  {
    if tasks == [] then 0 else TotalOf(tasks[..|tasks| - 1], w) + w(tasks[|tasks| - 1])
  }

  lemma {:induction false} TotalOfOne(tasks: seq<Task>)
    ensures TotalOf(tasks, One) == |tasks|
    decreases |tasks|
  {
    if tasks != [] {
      TotalOfOne(tasks[..|tasks| - 1]);
    }
  }

  /** The sum of `w` over the groups named by `keys`. */
  function KeyedTotal(keys: seq<string>, groups: map<string, seq<Task>>, w: Task -> int): int
    requires forall k :: k in keys ==> k in groups
    decreases |keys|
  {
    if keys == [] then 0
    else KeyedTotal(keys[..|keys| - 1], groups, w) + TotalOf(groups[keys[|keys| - 1]], w)
  }

  lemma {:induction false} KeyedTotalFrame(keys: seq<string>, groups: map<string, seq<Task>>, a: string, v: seq<Task>, w: Task -> int)
    requires forall k :: k in keys ==> k in groups
    requires a !in keys
    ensures KeyedTotal(keys, groups[a := v], w) == KeyedTotal(keys, groups, w)
    decreases |keys|
  {
    if keys != [] {
      KeyedTotalFrame(keys[..|keys| - 1], groups, a, v, w);
    }
  }

  lemma {:induction false} KeyedTotalPush(keys: seq<string>, groups: map<string, seq<Task>>, a: string, t: Task, w: Task -> int)
    requires forall k :: k in keys ==> k in groups
    requires a in keys && Distinct(keys)
    ensures KeyedTotal(keys, groups[a := groups[a] + [t]], w) == KeyedTotal(keys, groups, w) + w(t)
    decreases |keys|
  {
    var pre := keys[..|keys| - 1];
    var last := keys[|keys| - 1];
    assert (groups[a] + [t])[..|groups[a]|] == groups[a];
    if last == a {
      assert a !in pre;
      KeyedTotalFrame(pre, groups, a, groups[a] + [t], w);
    } else {
      assert a in pre;
      KeyedTotalPush(pre, groups, a, t, w);
    }
  }

  /** Adding a task to the grouping adds its weight to the total over the groups. */
  lemma AddToGroupTotal(g: Grouping, t: Task, w: Task -> int)
    requires Distinct(g.keys) && forall k :: k in g.groups <==> k in g.keys
    ensures forall k :: k in AddToGroup(g, t).keys ==> k in AddToGroup(g, t).groups
    ensures KeyedTotal(AddToGroup(g, t).keys, AddToGroup(g, t).groups, w) == KeyedTotal(g.keys, g.groups, w) + w(t)
  {
    var a := t.assignedAgent;
    if a in g.groups {
      KeyedTotalPush(g.keys, g.groups, a, t, w);
    } else {
      var keys := g.keys + [a];
      assert keys[..|keys| - 1] == g.keys;
      assert TotalOf([t], w) == w(t) by {
        assert [t][..0] == [];
      }
      KeyedTotalFrame(g.keys, g.groups, a, [t], w);
    }
  }

  /** Summing over the groups gives the same total as summing over the tasks. */
  lemma {:induction false} GroupedTotal(tasks: seq<Task>, w: Task -> int)
    ensures forall k :: k in Grouped(tasks).keys ==> k in Grouped(tasks).groups
    ensures KeyedTotal(Grouped(tasks).keys, Grouped(tasks).groups, w) == TotalOf(tasks, w)
    decreases |tasks|
  {
    GroupedKeys(tasks);
    if tasks != [] {
      var pre := tasks[..|tasks| - 1];
      var t := tasks[|tasks| - 1];
      GroupedKeys(pre);
      GroupedTotal(pre, w);
      assert Grouped(tasks) == AddToGroup(Grouped(pre), t);
      AddToGroupTotal(Grouped(pre), t, w);
    }
  }

  // ---------------------------------------------------------------------
  // Task breakdown: the section
  // ---------------------------------------------------------------------

  /** `requiredAgents.find(a => a.id === id)`. */
  function FindAgent(agents: seq<Agent>, id: string): (r: Option<Agent>)
    ensures r.Some? <==> id in AgentIds(agents)
    ensures r.Some? ==> r.value in agents && r.value.id == id
    decreases |agents|
  {
    if agents == [] then None
    else if agents[0].id == id then Some(agents[0])
    else
      assert AgentIds(agents) == [agents[0].id] + AgentIds(agents[1..]);
      FindAgent(agents[1..], id)
  }

  /** `agent?.name || agentId`. */
  function Heading(agents: seq<Agent>, id: string): (h: string)
    ensures id !in AgentIds(agents) ==> h == id
  {
    match FindAgent(agents, id)
    case Some(a) => if a.name != "" then a.name else id
    case None => id
  }

  /** The heading is the name of the first agent with that id, unless that name is empty. */
  lemma {:induction false} HeadingOfFirst(agents: seq<Agent>, id: string, i: nat)
    requires i < |agents| && agents[i].id == id
    requires forall j :: 0 <= j < i ==> agents[j].id != id
    ensures Heading(agents, id) == if agents[i].name != "" then agents[i].name else id
    decreases i
  {
    if i > 0 {
      HeadingOfFirst(agents[1..], id, i - 1);
      assert FindAgent(agents, id) == FindAgent(agents[1..], id);
    }
  }

  function GroupsOf(agents: seq<Agent>, keys: seq<string>, groups: map<string, seq<Task>>): (r: seq<TaskGroup>)
    requires forall k :: k in keys ==> k in groups
    ensures |r| == |keys|
    ensures forall i :: 0 <= i < |r| ==> r[i] == TaskGroup(Heading(agents, keys[i]), groups[keys[i]])
  {
    seq(|keys|, i requires 0 <= i < |keys| => TaskGroup(Heading(agents, keys[i]), groups[keys[i]]))
  }

  lemma GroupsOfSnoc(agents: seq<Agent>, keys: seq<string>, groups: map<string, seq<Task>>, i: nat)
    requires i < |keys| && forall k :: k in keys ==> k in groups
    ensures GroupsOf(agents, keys[..i + 1], groups)
         == GroupsOf(agents, keys[..i], groups) + [TaskGroup(Heading(agents, keys[i]), groups[keys[i]])]
  {
    var r := GroupsOf(agents, keys[..i], groups) + [TaskGroup(Heading(agents, keys[i]), groups[keys[i]])];
    assert forall m :: 0 <= m <= i ==> GroupsOf(agents, keys[..i + 1], groups)[m] == r[m];
  }

  /** The sum of `w` over the tasks of every group. */
  function GroupsTotal(gs: seq<TaskGroup>, w: Task -> int): int
    decreases |gs|
  {
    if gs == [] then 0 else GroupsTotal(gs[..|gs| - 1], w) + TotalOf(gs[|gs| - 1].tasks, w)
  }

  lemma {:induction false} GroupsTotalKeyed(agents: seq<Agent>, keys: seq<string>, groups: map<string, seq<Task>>, w: Task -> int)
    requires forall k :: k in keys ==> k in groups
    ensures GroupsTotal(GroupsOf(agents, keys, groups), w) == KeyedTotal(keys, groups, w)
    decreases |keys|
  {
    if keys != [] {
      var pre := keys[..|keys| - 1];
      GroupsTotalKeyed(agents, pre, groups, w);
      var gs := GroupsOf(agents, keys, groups);
      assert gs[..|gs| - 1] == GroupsOf(agents, pre, groups);
    }
  }

  /** The task section for a roster and a breakdown. */
  function TaskSectionOf(agents: seq<Agent>, tasks: seq<Task>): Section {
    GroupedKeys(tasks);
    var g := Grouped(tasks);
    TaskSection(|tasks|, TotalOf(tasks, Hours), GroupsOf(agents, g.keys, g.groups))
  }

  /**
   * The section's totals agree with its groups: the tasks of the groups
   * number "Total Tasks", and their hours add up to "Estimated Total Hours".
   */
  lemma TaskSectionTotals(agents: seq<Agent>, tasks: seq<Task>)
    ensures var s := TaskSectionOf(agents, tasks);
      && GroupsTotal(s.groups, One) == s.totalTasks
      && GroupsTotal(s.groups, Hours) == s.totalHours
  {
    GroupedKeys(tasks);
    var g := Grouped(tasks);
    GroupedTotal(tasks, One);
    GroupedTotal(tasks, Hours);
    GroupsTotalKeyed(agents, g.keys, g.groups, One);
    GroupsTotalKeyed(agents, g.keys, g.groups, Hours);
    TotalOfOne(tasks);
  }

  /** `buildTaskBreakdown`: the totals, the grouping, then the `forEach` over the groups. */
  method BuildTaskBreakdown(analysis: AnalysisResult) returns (section: Section)
    ensures section == TaskSectionOf(analysis.requiredAgents, analysis.taskBreakdown)
  {
    var tasks := analysis.taskBreakdown;
    var agents := analysis.requiredAgents;
    var g := GroupByAgent(tasks);
    GroupedKeys(tasks);
    var blocks: seq<TaskGroup> := [];
    for i := 0 to |g.keys|
      invariant blocks == GroupsOf(agents, g.keys[..i], g.groups)
    {
      GroupsOfSnoc(agents, g.keys, g.groups, i);
      blocks := blocks + [TaskGroup(Heading(agents, g.keys[i]), g.groups[g.keys[i]])];
    }
    assert g.keys[..|g.keys|] == g.keys;
    section := TaskSection(|tasks|, TotalOf(tasks, Hours), blocks);
  }

  // ---------------------------------------------------------------------
  // The prompt
  // ---------------------------------------------------------------------

  /** The seven sections, in order. */
  function SectionsOf(analysis: AnalysisResult, now: nat): (r: seq<Section>)
    ensures |r| == 7
    ensures r[0].Header? && r[1].Context? && r[2].McpSection? && r[3].AgentsSection?
    ensures r[4].TaskSection? && r[5].ProtocolSection? && r[6].Footer?
  {
    [HeaderOf(analysis, now), ContextOf(analysis), McpSection(McpBlocks(analysis.recommendedMcps)),
     AgentsSection(|analysis.requiredAgents|, AgentBlocks(analysis.requiredAgents)),
     TaskSectionOf(analysis.requiredAgents, analysis.taskBreakdown),
     ProtocolSection(analysis.collaborationProtocol), Footer]
  }

  /** `buildMarkdown`. */
  method BuildMarkdown(analysis: AnalysisResult, now: nat) returns (sections: seq<Section>)
    ensures sections == SectionsOf(analysis, now)
  {
    var mcpSection := BuildMcpSection(analysis);
    var agentsSection := BuildAgentsSection(analysis);
    var taskSection := BuildTaskBreakdown(analysis);
    sections := [HeaderOf(analysis, now), ContextOf(analysis), mcpSection, agentsSection, taskSection,
                 ProtocolSection(analysis.collaborationProtocol), Footer];
  }

  /** The prompt `generate` produces. */
  function PromptOf(analysis: AnalysisResult, now: nat): GeneratedPrompt {
    GeneratedPrompt(SectionsOf(analysis, now), PromptMetadata(
      analysis.project.name, |analysis.requiredAgents|, |analysis.recommendedMcps|, |analysis.taskBreakdown|, now))
  }

  /**
   * `generate`: the sections, and metadata whose counts are the lengths of
   * the roster, the MCP list and the breakdown; `now` is the clock's value.
   */
  method Generate(analysis: AnalysisResult, now: nat) returns (prompt: GeneratedPrompt)
    ensures prompt == PromptOf(analysis, now)
    ensures prompt.markdown == SectionsOf(analysis, now)
    ensures prompt.metadata.projectName == analysis.project.name
    ensures prompt.metadata.totalAgents == |analysis.requiredAgents|
    ensures prompt.metadata.totalMcps == |analysis.recommendedMcps|
    ensures prompt.metadata.totalTasks == |analysis.taskBreakdown|
    ensures prompt.metadata.generatedAt == now
  {
    var markdown := BuildMarkdown(analysis, now);
    prompt := GeneratedPrompt(markdown, PromptMetadata(
      analysis.project.name, |analysis.requiredAgents|, |analysis.recommendedMcps|, |analysis.taskBreakdown|, now));
  }
}
