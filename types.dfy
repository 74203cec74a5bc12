/**
 * The domain records shared by the analyser, the prompt generator and the
 * API routes: MCP servers, agents, project configurations, tasks and the
 * analysis result that ties them together.
 */
module Types {
  import opened Wrappers

  /** An MCP server; `required` and `reasoning` are set when an AI recommendation annotates it. */
  datatype McpServer = McpServer(
    id: string,
    name: string,
    description: string,
    capabilities: seq<string>,
    useCases: seq<string>,
    categories: seq<string>,
    required: Option<bool>,
    reasoning: Option<string>)

  datatype Priority = Critical | High | Medium | Low

  datatype Agent = Agent(
    id: string,
    name: string,
    role: string,
    responsibilities: seq<string>,
    mcpAccess: seq<string>,
    collaboratesWith: seq<string>,
    priority: Priority)

  /** A selected feature; `description` is carried over from the feature catalogue. */
  datatype Feature = Feature(
    id: string,
    name: string,
    category: string,
    required: bool,
    description: Option<string>)

  datatype TechStack = TechStack(
    frontend: Option<seq<string>>,
    backend: Option<seq<string>>,
    database: Option<seq<string>>)

  /** `createdAt` is left out: it is the clock's value at creation. */
  datatype Metadata = Metadata(
    estimatedComplexity: string,
    estimatedDuration: string,
    teamSize: int,
    templateUsed: Option<string>)

  datatype ProjectConfig = ProjectConfig(
    name: string,
    description: string,
    projectType: string,
    features: seq<Feature>,
    techStack: TechStack,
    metadata: Metadata)

  datatype Task = Task(
    id: string,
    title: string,
    description: string,
    assignedAgent: string,
    dependencies: seq<string>,
    estimatedHours: int,
    priority: int)

  datatype CollaborationProtocol = CollaborationProtocol(
    communicationChannels: seq<string>,
    reviewProcess: seq<string>,
    conflictResolution: seq<string>,
    progressTracking: seq<string>)

  datatype AnalysisResult = AnalysisResult(
    project: ProjectConfig,
    recommendedMcps: seq<McpServer>,
    requiredAgents: seq<Agent>,
    taskBreakdown: seq<Task>,
    collaborationProtocol: CollaborationProtocol)

  function McpIds(mcps: seq<McpServer>): (r: seq<string>)
    ensures |r| == |mcps|
    ensures forall i :: 0 <= i < |mcps| ==> r[i] == mcps[i].id
  {
    seq(|mcps|, i requires 0 <= i < |mcps| => mcps[i].id)
  }

  function AgentIds(agents: seq<Agent>): (r: seq<string>)
    ensures |r| == |agents|
    ensures forall i :: 0 <= i < |agents| ==> r[i] == agents[i].id
  {
    seq(|agents|, i requires 0 <= i < |agents| => agents[i].id)
  }

  /** `config.features.some(f => f.category === category)`. */
  predicate HasFeatureCategory(config: ProjectConfig, category: string) {
    exists i :: 0 <= i < |config.features| && config.features[i].category == category
  }

  /** `list?.includes(x)`: false when the list is absent. */
  predicate Includes(list: Option<seq<string>>, x: string) {
    list.Some? && x in list.value
  }
}
