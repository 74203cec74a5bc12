# Project Generator Pro — a verified model of its core

Project Generator Pro is an Astro web application. It turns a short project
description (a name, a type, a description, selected features, a tech stack)
into a ready-to-open project for an AI coding assistant. That project holds:

- an analysis: the recommended MCP servers, a roster of agents, and a task breakdown with dependencies;
- a Markdown prompt built from that analysis;
- agent definition files and MCP configuration files;
- a preview of the file tree.

The application also has a cookie-based access gate, quick-start templates, a
project history kept in local storage, and an error-handling utility.

This Dafny project models that core, one module per source file:

| module | source file | what it models |
|---|---|---|
| `Analysis` | `src/lib/analysis.ts` | `ProjectAnalyzer`: MCP selection from the AI's recommendations (or its fallback), the agent roster, the numbered task breakdown with its dependencies, the collaboration protocol |
| `PromptGenerator` | `src/lib/promptGenerator.ts` | the prompt's seven sections, the MCP and agent blocks, tasks grouped by agent with hour totals, the metadata |
| `FeatureMapping` | `src/lib/featureMapping.ts` | the feature catalogue, the mapping of request items, dependency validation, recommendations |
| `McpDatabase` | `src/lib/mcpDatabase.ts` | the MCP registry and its lookups and search |
| `FileStructure` | `src/lib/fileStructureGenerator.ts` | the name sanitiser that drops invalid characters, the preview tree, `.env.example` blocks, `docker-compose.yml` services |
| `ProjectCreator` | `src/lib/projectCreator.ts` | the hyphenating name sanitiser, the directory list, agent and MCP paths, and `createProject` |
| `McpConfig` | `src/lib/mcpConfigGenerator.ts` | the conditional `.mcp.json` server table and the ssh argument list |
| `QuickStart` | `src/lib/quickStartTemplates.ts` | the fourteen templates, popularity ranking, the tag and category filters, counts, conversion to a configuration |
| `ClaudeClient` | `src/lib/claudeClient.ts` | `extractJSON`, the default suggestions, the fallbacks when a reply cannot be parsed |
| `ErrorHandler` | `src/lib/errorHandler.ts` | error classification, display options, required-field validation, retry with backoff |
| `ProjectHistory` | `src/lib/projectHistory.ts` | the history as a class over its stored list |
| `Auth`, `Middleware`, `AuthRoutes` | `src/lib/auth.ts`, `src/middleware/index.ts`, `src/pages/api/auth/*.ts` | the access code and cookie parse, the API gate, login, logout and verify over a cookie jar |
| `RequestConfig`, `GenerateRoute`, `AnalyzeRoute`, `QuestionsRoute` | `src/pages/api/generate.ts`, `analyze.ts`, `generate-questions.ts` | the request-to-configuration step, and the three API handlers |

Helper modules:

- `Wrappers`: `Option`.
- `Strings`: ASCII string operations with JavaScript semantics.
- `Digits`: decimal rendering and its parse.
- `Seqs`: filter and sum.
- `Sorting`: the stable descending sort behind `Array.prototype.sort`, specified on sequences and carried out in place on an array.
- `Types`: the shared records.

The model follows the code where it differs from the project's tests:

- `POST /api/analyze` answers under the key `analysis`.
- In `POST /api/generate`, a `null` configuration is dereferenced before validation and ends in the 500 branch.
- In `POST /api/auth/login`, a body that is not JSON ends in the 500 branch.

Some behaviour of the code is proved as stated:

- **MCP success path.** When the AI call succeeds, Desktop Commander and GitHub are not forced into the list.
- **Task dependencies.** Several tasks list their own id as a dependency, because the counter has already been incremented.
- **Agent `mcpAccess`.** A non-frontend agent's `mcpAccess` keeps the order of that agent's fixed candidate list, not the order of the recommendation. So the model states it as a subsequence of the candidate list whose every element is recommended.
- **The two sanitisers.** They disagree: `a.b` becomes `ab` in one and `a-b` in the other.
- **`sanitizeProjectName` idempotence.** It holds only when the result is non-empty: `!!!` becomes `""`, and `""` becomes `project`.
- **The AI block of the env example.** In `generate.ts`, `buildEnvExample` has a block for the `ai` category, but no catalogue feature has that category. So the block is unreachable.
- **The entry point's extension.** The generate route names it after the backend only. The preview tree also looks at the frontend.

## Model

| member | source | states |
|---|---|---|
| Analysis.Annotate | src/lib/analysis.ts:71-75 | the catalogue entry unchanged except for the recommendation's `required` and `reasoning` |
| Analysis.LastRecFor | src/lib/analysis.ts:67-77 | a recommendation is found exactly when some recommendation names the id, and it names that id |
| Analysis.MergeKeysDistinct | src/lib/analysis.ts:65-77 | the map's keys are distinct and are exactly the keys of its entries |
| Analysis.MergeKeysKnown | src/lib/analysis.ts:67-77 | a key is present exactly when some recommendation names it and the catalogue knows it |
| Analysis.MergeEntriesLast | src/lib/analysis.ts:67-77 | each entry is the catalogue entry annotated by the last recommendation for its id |
| Analysis.MergeKeysOrder | src/lib/analysis.ts:65-79 | the keys come in the order of the first recommendation naming them |
| Analysis.MapValues | src/lib/analysis.ts:79 | the map's values in insertion order |
| Analysis.MergeValues | src/lib/analysis.ts:65-79 | the values in insertion order are the annotated catalogue entries, one per known recommended id, in first-recommendation order |
| Analysis.McpsOfSpec | src/lib/analysis.ts:38-93 | a failed call gives exactly Desktop Commander then GitHub; on success every entry is a catalogue entry annotated by the last recommendation for its id, ids are distinct, unknown ids are dropped, order is first recommendation, and nothing the AI did not name is added |
| Analysis.AnalyzeMcps | src/lib/analysis.ts:38-93 | the selection is the specified server list for the call's outcome |
| Analysis.MergeRecommendations | src/lib/analysis.ts:65-77 | the `forEach` builds exactly the specified map |
| Analysis.RoleOf | src/lib/analysis.ts:112-304 | a role found for an id carries that id |
| Analysis.RoleIdRoundTrip | src/lib/analysis.ts:112-304 | every role is recovered from its id |
| Analysis.RolesUpToIn | src/lib/analysis.ts:140-304 | a role is among the first `k` considered exactly when it is selected and ranks below `k` |
| Analysis.RolesSpec | src/lib/analysis.ts:112-304 | managing first, documentation always, the roles in the fixed order, each once, and a role present exactly when its predicate holds |
| Analysis.ExpectedRosterSpec | src/lib/analysis.ts:112-304 | `managing-agent` first, `documentation-agent` always, ids distinct, and a role's id present exactly when the configuration selects it |
| Analysis.Available | src/lib/analysis.ts:154 | the candidates that are among the recommended ids, in candidate order |
| Analysis.AgentsFor | src/lib/analysis.ts:112-304 | one agent per role, in role order |
| Analysis.PushedUpToAgents | src/lib/analysis.ts:140-304 | the conditional pushes produce exactly the agents of the selected roles, in the fixed order |
| Analysis.PushedUpToNonEmpty | src/lib/analysis.ts:113-130 | once the managing agent is pushed the roster is never empty |
| Analysis.AccessRule | src/lib/analysis.ts:154-300 | a non-managing agent's MCP access is its role's candidate list filtered to the recommended ids, in candidate order |
| Analysis.CollaboratesWithManaging | src/lib/analysis.ts:140-304 | every non-managing role names `managing-agent` among its collaborators |
| Analysis.AgentsForIds | src/lib/analysis.ts:112-304 | the agents' ids are the roles' ids |
| Analysis.CompleteFirstIds | src/lib/analysis.ts:307 | overwriting the managing agent's collaborators changes no id and no later agent |
| Analysis.RosterManaging | src/lib/analysis.ts:113-130 | the managing agent heads the roster: critical, access to every recommended server, collaborating with every other agent in roster order; the ids are the expected roster |
| Analysis.RosterMembers | src/lib/analysis.ts:140-304 | every other agent has its role's id and priority, names the managing agent among its collaborators, and follows its role's access rule |
| Analysis.PushIf | src/lib/analysis.ts:140-304 | one conditional push takes the roster from `k` roles considered to `k + 1` |
| Analysis.PushRoles | src/lib/analysis.ts:113-304 | the pushes produce the specified roster, never empty |
| Analysis.AnalyzeAgents | src/lib/analysis.ts:108-310 | `analyzeAgents` returns exactly the specified roster for the configuration and the recommended ids |
| Analysis.KindsUpToIn | src/lib/analysis.ts:320-446 | a task kind is among the first `k` emitted exactly when its block runs and it ranks below `k` |
| Analysis.BuildTasks | src/lib/analysis.ts:315-448 | the task of each emitted kind is built at its own index |
| Analysis.TasksUpToBuild | src/lib/analysis.ts:320-446 | the pushes produce the reference list |
| Analysis.TasksUpToLength | src/lib/analysis.ts:320-446 | the number of tasks pushed is the number of blocks that ran |
| Analysis.TaskCount | src/lib/analysis.ts:320-446 | there are 3 + 2·data + backend + security + 2·frontend + qa + devops tasks |
| Analysis.KindsFacts | src/lib/analysis.ts:320-338 | the emitted kinds are ranked, start with initialisation and environment, and number at least three |
| Analysis.BreakdownNumbered | src/lib/analysis.ts:317-446 | the task at index `i` has id `task-<i+1>` |
| Analysis.BreakdownAssigned | src/lib/analysis.ts:315-448 | every task is assigned to an agent of the roster |
| Analysis.TaskIdDistinct | src/lib/analysis.ts:321 | distinct numbers give distinct task ids |
| Analysis.TaskDependencies | src/lib/analysis.ts:357-442 | every dependency names a task up to the current one; the task's own id is a dependency exactly in the self-dependent cases; tests and CI/CD depend on the task just before; initialisation and documentation have none |
| Analysis.BuildDependencies | src/lib/analysis.ts:357-442 | the same facts over a built list |
| Analysis.BreakdownDependencies | src/lib/analysis.ts:357-442 | dependencies never point forward; exactly the migration, integration, API-with-data and authentication-with-backend tasks depend on themselves; tests and CI/CD depend on the task just before; initialisation and documentation have none |
| Analysis.PushTask | src/lib/analysis.ts:341-446 | one block takes the list from `k` kinds to `k + 1`, and the counter stays one past the list's length |
| Analysis.PushFoundation | src/lib/analysis.ts:317-361 | the foundation and data blocks produce the first four kinds' tasks |
| Analysis.PushFeatures | src/lib/analysis.ts:363-410 | the API, authentication and frontend blocks continue the specified list |
| Analysis.PushDelivery | src/lib/analysis.ts:412-446 | the testing, documentation and deployment blocks complete the specified list |
| Analysis.PushTasks | src/lib/analysis.ts:315-448 | the eleven blocks, sharing one counter from 1, produce the specified list |
| Analysis.GenerateTaskBreakdown | src/lib/analysis.ts:315-448 | the breakdown is the specified list for the roster's agent ids |
| Analysis.GenerateCollaborationProtocol | src/lib/analysis.ts:454-481 | four fixed lists of 4, 5, 4 and 4 lines |
| Analysis.RolePresent | src/lib/analysis.ts:341-436 | a roster with the expected ids holds a role's agent exactly when the configuration selects the role |
| Analysis.RosterPresence | src/lib/analysis.ts:132-137 | such a roster holds, as the breakdown tests it, exactly the roles the configuration selects |
| Analysis.AnalyzeTeam | src/lib/analysis.ts:22-24 | the roster, breakdown and protocol for the servers; the number of tasks follows from the configuration alone, and every task is assigned to a roster agent |
| Analysis.AnalysisShape | src/lib/analysis.ts:20-33 | the roster has the expected ids, the task count follows from the configuration, and every task is assigned to a roster agent |
| Analysis.Analyze | src/lib/analysis.ts:20-33 | the MCP selection first, then the roster, breakdown and protocol built on it |
| PromptGenerator.HeaderOf | src/lib/promptGenerator.ts:37-46 | the header carries the project name and the upper-cased type |
| PromptGenerator.TechLineIf | src/lib/promptGenerator.ts:62-69 | a tech-stack line appears exactly when its list is present and non-empty |
| PromptGenerator.TechLines | src/lib/promptGenerator.ts:62-69 | at most the three stack lines |
| PromptGenerator.ContextOf | src/lib/promptGenerator.ts:48-72 | the context carries the description and one line per feature, with its name and category |
| PromptGenerator.McpBlocks | src/lib/promptGenerator.ts:81-93 | one block per recommended server, in list order, with its id and name |
| PromptGenerator.BuildMcpSection | src/lib/promptGenerator.ts:74-96 | the `forEach` builds exactly one block per server, in order |
| PromptGenerator.CollaboratorLines | src/lib/promptGenerator.ts:121 | the collaborator ids, or the single "Works independently" note when there are none |
| PromptGenerator.AgentBlocks | src/lib/promptGenerator.ts:105-126 | one block per agent, numbered from 1 in roster order, with its name and its collaborator lines |
| PromptGenerator.BuildAgentsSection | src/lib/promptGenerator.ts:98-129 | the agent count, then the numbered blocks |
| PromptGenerator.AssignedIds | src/lib/promptGenerator.ts:142-147 | the assigned agent of every task, in breakdown order |
| PromptGenerator.TasksFor | src/lib/promptGenerator.ts:142-147 | exactly the tasks assigned to the agent |
| PromptGenerator.TasksForAbsent | src/lib/promptGenerator.ts:142-147 | an agent no task is assigned to has no tasks |
| PromptGenerator.GroupedKeys | src/lib/promptGenerator.ts:141-147 | one group key per distinct assigned agent, and the map holds exactly those keys |
| PromptGenerator.GroupedOrder | src/lib/promptGenerator.ts:141-149 | the groups come in the order of each agent's first task |
| PromptGenerator.GroupedMembers | src/lib/promptGenerator.ts:142-147 | each group holds exactly its agent's tasks, in breakdown order |
| PromptGenerator.TaskInOneGroup | src/lib/promptGenerator.ts:142-147 | every task is in its own agent's group |
| PromptGenerator.GroupByAgent | src/lib/promptGenerator.ts:141-147 | the loop filling the map builds exactly the specified grouping |
| PromptGenerator.AddToGroupTotal | src/lib/promptGenerator.ts:143-146 | adding a task to the grouping adds its weight to the total over the groups |
| PromptGenerator.GroupedTotal | src/lib/promptGenerator.ts:135-147 | summing over the groups gives the same total as summing over the tasks |
| PromptGenerator.FindAgent | src/lib/promptGenerator.ts:150 | an agent is found exactly when some agent has the id, and it has that id |
| PromptGenerator.Heading | src/lib/promptGenerator.ts:151 | an id no agent carries is its own heading |
| PromptGenerator.HeadingOfFirst | src/lib/promptGenerator.ts:150-151 | the heading is the name of the first agent with the id, or the id when that name is empty |
| PromptGenerator.GroupsOf | src/lib/promptGenerator.ts:149-158 | one printed group per key, in key order, with its heading and tasks |
| PromptGenerator.TaskSectionTotals | src/lib/promptGenerator.ts:132-161 | the groups hold "Total Tasks" tasks, and their hours add up to "Estimated Total Hours" |
| PromptGenerator.BuildTaskBreakdown | src/lib/promptGenerator.ts:132-161 | the totals, the grouping and the group loop build exactly the specified section |
| PromptGenerator.SectionsOf | src/lib/promptGenerator.ts:23-35 | seven sections: header, context, servers, agents, tasks, protocol, footer |
| PromptGenerator.BuildMarkdown | src/lib/promptGenerator.ts:23-35 | the specified seven sections |
| PromptGenerator.Generate | src/lib/promptGenerator.ts:8-21 | the sections, and metadata with the project name, the counts of agents, servers and tasks, and the clock's time |
| FeatureMapping.GetAllFeatureIds | src/lib/featureMapping.ts:134-136 | the eight catalogue ids in order, all distinct |
| FeatureMapping.GetFeatureDefinition | src/lib/featureMapping.ts:126-128 | a definition is found exactly for a catalogue id, and it is the catalogue entry with that id |
| FeatureMapping.OnlyApiHasDependencies | src/lib/featureMapping.ts:19-73 | the only definition with dependencies is API Routes |
| FeatureMapping.GetFeaturesByCategory | src/lib/featureMapping.ts:143-145 | the result holds exactly the catalogue entries of that category |
| FeatureMapping.DatabaseCategory | src/lib/featureMapping.ts:143-145 | the database category holds Database then API Routes |
| FeatureMapping.NormalizeId | src/lib/featureMapping.ts:86-93 | an id is found exactly for a non-empty string or an object with a truthy `id`, and it is never empty |
| FeatureMapping.NormalizedIds | src/lib/featureMapping.ts:86-93 | no longer than the input, and no id is empty |
| FeatureMapping.ToProjectFeature | src/lib/featureMapping.ts:107-115 | a catalogue entry becomes a required feature with the same id, name, category and its description |
| FeatureMapping.MapFeaturesToProjectFeatures | src/lib/featureMapping.ts:81-119 | no more features than request items; `MapFeaturesSpec` states which |
| FeatureMapping.MapIdsSpec | src/lib/featureMapping.ts:96-117 | every mapped feature is a required catalogue entry, and the ids kept are exactly the catalogued ones, in request order with repetitions |
| FeatureMapping.MapFeaturesSpec | src/lib/featureMapping.ts:81-119 | under the own-key lookup, every feature is a required catalogue entry, and the ids are the catalogued ones among the normalised request ids, in order |
| FeatureMapping.MissingStep | src/lib/featureMapping.ts:160-169 | one selected id contributes a message only when it is API Routes and Database is not selected |
| FeatureMapping.MissingCharacterised | src/lib/featureMapping.ts:160-169 | the messages are one "API Routes requires Database" per selected `api`, or none when Database is selected |
| FeatureMapping.CollectMissing | src/lib/featureMapping.ts:163-167 | the messages collected for one feature are exactly its unmet dependencies |
| FeatureMapping.ValidateFeatureDependencies | src/lib/featureMapping.ts:152-177 | the missing list is the messages for the selection, valid exactly when it is empty, and no warnings |
| FeatureMapping.ValidIffApiHasDatabase | src/lib/featureMapping.ts:152-177 | a selection is valid exactly when it does not pick API Routes without Database |
| FeatureMapping.GetRecommendedFeatures | src/lib/featureMapping.ts:183-197 | every recommended id is catalogued, and a type outside the nine listed gets none |
| FeatureMapping.RecommendationsValidation | src/lib/featureMapping.ts:183-197 | every recommended set passes the dependency check except the `mobile` one |
| FeatureMapping.RecommendedApiComesWithDatabase | src/lib/featureMapping.ts:184-195 | a recommendation containing `api` also contains `database`, for every type except `mobile` |
| McpDatabase.RegistryIds | src/lib/mcpDatabase.ts:7-261 | the registry's ids, in catalogue order |
| McpDatabase.RegistryIdsDistinct | src/lib/mcpDatabase.ts:7-261 | no two registry entries share an id |
| McpDatabase.GetMcpsByCategory | src/lib/mcpDatabase.ts:266-268 | exactly the registry servers listing the category, in catalogue order |
| McpDatabase.FindById | src/lib/mcpDatabase.ts:274 | the first server in the list with that id, and none exactly when no server has it |
| McpDatabase.GetMcpById | src/lib/mcpDatabase.ts:273-275 | a registry server with that id, found exactly when the id is in the registry |
| McpDatabase.GetMcpByIdFindsEntry | src/lib/mcpDatabase.ts:273-275 | every registry entry is found by its own id |
| McpDatabase.GetRequiredMcps | src/lib/mcpDatabase.ts:280-282 | exactly the registry servers flagged required |
| McpDatabase.RequiredAreDesktopCommanderAndGitHub | src/lib/mcpDatabase.ts:280-282 | the required servers are Desktop Commander then GitHub |
| McpDatabase.SearchMcps | src/lib/mcpDatabase.ts:287-295 | exactly the registry servers whose lower-cased name, description, a capability or a use case contains the lower-cased query, in catalogue order |
| McpDatabase.SearchEmptyReturnsAll | src/lib/mcpDatabase.ts:287-295 | an empty query returns the whole registry |
| McpDatabase.SearchIgnoresQueryCase | src/lib/mcpDatabase.ts:288 | searching a query and its lower-case form give the same servers |
| McpDatabase.SearchIgnoresIdAndCategories | src/lib/mcpDatabase.ts:289-294 | a server's id and categories take no part in whether it matches |
| FileStructure.RemoveInvalid | src/lib/fileStructureGenerator.ts:140 | the result is no longer than the input and holds only lower-case letters, digits, `-` and whitespace |
| FileStructure.RemoveInvalidKeeps | src/lib/fileStructureGenerator.ts:140 | text made only of kept characters is unchanged |
| FileStructure.HyphenatedChars | src/lib/fileStructureGenerator.ts:139-141 | after the whitespace-to-hyphen step only lower-case letters, digits and hyphens remain |
| FileStructure.SquashedShape | src/lib/fileStructureGenerator.ts:139-142 | after squashing hyphen runs only name characters remain and no two hyphens are adjacent |
| FileStructure.SanitizeShape | src/lib/fileStructureGenerator.ts:137-144 | a sanitised name holds only lower-case letters, digits and hyphens, with no doubled hyphen |
| FileStructure.SquashedFixpoint | src/lib/fileStructureGenerator.ts:139-142 | name characters without a doubled hyphen pass the replacement steps unchanged |
| FileStructure.SanitizeFixpoint | src/lib/fileStructureGenerator.ts:137-144 | a non-empty string of name characters without a doubled hyphen is its own sanitised form |
| FileStructure.SanitizeIdempotent | src/lib/fileStructureGenerator.ts:137-144 | sanitising a non-empty sanitised name again changes nothing |
| FileStructure.SanitizeEmpty | src/lib/fileStructureGenerator.ts:138 | the empty name becomes `project` |
| FileStructure.SanitizeNotIdempotentOnEmpty | src/lib/fileStructureGenerator.ts:137-144 | `!!!` sanitises to the empty string, which a second pass turns into `project` |
| FileStructure.AgentFiles | src/lib/fileStructureGenerator.ts:149-156 | one file per agent, in roster order, named `<id>.md` |
| FileStructure.ServerFolderNodes | src/lib/fileStructureGenerator.ts:176-207 | the server folders are routes, controllers, models, services and utils, in that order |
| FileStructure.UiFolderNodes | src/lib/fileStructureGenerator.ts:209-225 | the UI folders are components and styles, in that order |
| FileStructure.SourceFileNames | src/lib/fileStructureGenerator.ts:161-225 | the entry point first, `index.ts` exactly when TypeScript is used, then the server folders for api, saas and webapp, then the UI folders for website, webapp and saas |
| FileStructure.GenerateSourceFiles | src/lib/fileStructureGenerator.ts:161-225 | the pushes build exactly the specified source list |
| FileStructure.GenerateEnvExample | src/lib/fileStructureGenerator.ts:339-412 | the appends build exactly the specified block list |
| FileStructure.EnvBlocksMember | src/lib/fileStructureGenerator.ts:350-410 | each optional block is present exactly when some feature has its category |
| FileStructure.EnvBlocksOrdered | src/lib/fileStructureGenerator.ts:339-412 | the General block comes first and the blocks keep the fixed order, so none repeats |
| FileStructure.ComposeSpec | src/lib/fileStructureGenerator.ts:521-579 | `app` comes first; postgres exactly when a database feature is chosen and PostgreSQL is listed; mongodb exactly when, instead, MongoDB is listed; never both; redis exactly for saas and api; a volume for each database service and no other |
| FileStructure.GenerateDockerCompose | src/lib/fileStructureGenerator.ts:521-579 | the service and volume additions build exactly the specified compose plan |
| FileStructure.FixedNodes | src/lib/fileStructureGenerator.ts:27-103 | the eight fixed root nodes, `.claude` to `.env.example`, in order |
| FileStructure.DockerNodes | src/lib/fileStructureGenerator.ts:117-128 | `Dockerfile` then `docker-compose.yml` |
| FileStructure.FileStructureNames | src/lib/fileStructureGenerator.ts:21-132 | the eight fixed nodes, then `tsconfig.json` exactly when TypeScript is used, then the Docker files exactly for api and microservice |
| FileStructure.FixedPrefix | src/lib/fileStructureGenerator.ts:27-103 | the fixed nodes come first, whatever is pushed after them |
| FileStructure.FileStructureContents | src/lib/fileStructureGenerator.ts:27-103 | `src` holds the source files, `.claude/agents` one file per agent of the analysis and none without one, `package.json` the sanitised name, `.env.example` the blocks |
| FileStructure.GenerateFileStructure | src/lib/fileStructureGenerator.ts:21-132 | the pushes build exactly the specified tree |
| ProjectCreator.MapInvalid | src/lib/projectCreator.ts:91 | same length; every character outside `[a-z0-9-]` becomes a hyphen and every other is kept |
| ProjectCreator.StripEdgeHyphens | src/lib/projectCreator.ts:93 | drops at most one leading and one trailing hyphen, so the result is never longer |
| ProjectCreator.SquashedNameShape | src/lib/projectCreator.ts:92 | squashing hyphen runs keeps only name characters and leaves no `--` |
| ProjectCreator.StripShape | src/lib/projectCreator.ts:93 | stripping the edges of such a string leaves no hyphen at either end and no `--` |
| ProjectCreator.HyphenateShape | src/lib/projectCreator.ts:88-94 | a sanitised name holds only `[a-z0-9-]`, never `--`, and no hyphen at either end |
| ProjectCreator.HyphenateFixpoint | src/lib/projectCreator.ts:88-94 | a string of that shape is its own sanitised form |
| ProjectCreator.HyphenateIdempotent | src/lib/projectCreator.ts:88-94 | sanitising twice is sanitising once, on every input |
| ProjectCreator.SanitisersDiffer | src/lib/projectCreator.ts:88-94 | the creator and the preview tree name the same project differently (`a-b` against `ab`) |
| ProjectCreator.AgentPath | src/lib/projectCreator.ts:103 | the agent file is `<project>/.claude/agents/<id>.md` |
| ProjectCreator.AgentPathInjective | src/lib/projectCreator.ts:103 | different agent ids give different paths under one project |
| ProjectCreator.McpEntries | src/lib/projectCreator.ts:118-125 | one entry per server, in order, with its id and name, enabled |
| ProjectCreator.McpEntryRequired | src/lib/projectCreator.ts:124 | an entry is required exactly when its server says `required: true`; an absent flag reads as false |
| ProjectCreator.TypeDirectoriesFresh | src/lib/projectCreator.ts:136-159 | no directory is listed twice |
| ProjectCreator.TypeDirectoriesCount | src/lib/projectCreator.ts:147-159 | saas and website add four directories, api three, cli-tool two, every other type none |
| ProjectCreator.Failure | src/lib/projectCreator.ts:75-82 | a failure reports `success: false`, empty paths and the error message |
| ProjectCreator.Creator.constructor | src/lib/projectCreator.ts:16-31 | the base path is `CLAUDE_PROJECTS_PATH` when set and non-empty, else the platform default |
| ProjectCreator.Creator.CreateAgentFiles | src/lib/projectCreator.ts:99-110 | one path per agent, in roster order, each the agent's file path |
| ProjectCreator.Creator.CreateMcpConfig | src/lib/projectCreator.ts:115-130 | returns `<project>/.claude/mcp-config.json` |
| ProjectCreator.Creator.CreateProjectStructure | src/lib/projectCreator.ts:135-162 | the seven base directories, then those the type adds |
| ProjectCreator.Creator.CreateProjectAsWritten | src/lib/projectCreator.ts:36-84 | as written, every call fails with the TypeError message of reading `name` off `undefined` |
| ProjectCreator.Creator.AnalyzeAndRender | src/lib/projectCreator.ts:44-47 | the analysis is of the given configuration, and the prompt counts its agents and carries the project name |
| ProjectCreator.Creator.CreateProject | src/lib/projectCreator.ts:36-84 | with the analysis awaited: success, no GitHub URL and no error, the project path is the base path joined with the hyphenated name, and the prompt path is `.claude/PROJECT_PROMPT.md` inside it |
| ProjectCreator.AgentPathsDistinct | src/lib/projectCreator.ts:99-110 | distinct agent ids give distinct agent file paths |
| McpConfig.KeyInjective | src/lib/mcpConfigGenerator.ts:42-139 | the eight server keys the generator writes are pairwise distinct |
| McpConfig.EscapeBackslashes | src/lib/mcpConfigGenerator.ts:97 | every backslash is doubled: the result is at least as long as the input |
| McpConfig.EscapeRoundTrip | src/lib/mcpConfigGenerator.ts:97 | reading the doubled backslashes back gives the original path |
| McpConfig.SshArgsShape | src/lib/mcpConfigGenerator.ts:117-133 | the ssh arguments are the fixed prefix, `--host`, `--user`, then `--port` and `--key` exactly when given, in that order |
| McpConfig.PutIfLookup | src/lib/mcpConfigGenerator.ts:42-139 | a conditional write adds its key exactly when its condition holds and leaves every other key as it was |
| McpConfig.CredentialLookup | src/lib/mcpConfigGenerator.ts:42-78 | after the desktop-commander, github and supabase blocks each of these keys is present exactly when its condition holds, with that block's entry |
| McpConfig.LibraryLookup | src/lib/mcpConfigGenerator.ts:80-94 | the context7 and memory blocks add their key exactly when recommended and change no other key |
| McpConfig.ProjectLookup | src/lib/mcpConfigGenerator.ts:96-139 | the agents, chrome-devtools and ssh blocks add their key exactly when its condition holds and change no other key |
| McpConfig.McpConfigLookup | src/lib/mcpConfigGenerator.ts:21-142 | every key is present exactly when its block's condition holds (agents always; every other server only for a recommended id with its options given), holding exactly that block's entry |
| McpConfig.TableLookup | src/lib/mcpConfigGenerator.ts:21-142 | the same lookup, stated over the set of recommended ids |
| McpConfig.AgentsAlwaysPresent | src/lib/mcpConfigGenerator.ts:96-105 | the agents entry is always written, with `node` and the escaped agents folder |
| McpConfig.UnknownIdIgnored | src/lib/mcpConfigGenerator.ts:39 | recommending an id that is no server's key leaves every entry as it was |
| McpConfig.BuildSshArgs | src/lib/mcpConfigGenerator.ts:117-133 | the pushes build exactly the specified ssh argument list |
| McpConfig.GenerateMcpConfig | src/lib/mcpConfigGenerator.ts:21-142 | the block-by-block writes build exactly the specified `mcpServers` object |
| McpConfig.AddCredentialServers | src/lib/mcpConfigGenerator.ts:42-78 | the first three blocks write exactly their specified entries |
| McpConfig.AddLibraryServers | src/lib/mcpConfigGenerator.ts:80-94 | the context7 and memory blocks write exactly their specified entries |
| McpConfig.AddProjectServers | src/lib/mcpConfigGenerator.ts:96-139 | the agents, chrome-devtools and ssh blocks write exactly their specified entries |
| QuickStart.AssembleColumns | src/lib/quickStartTemplates.ts:19-472 | each column of the assembled table is the column it was built from |
| QuickStart.TemplatesColumns | src/lib/quickStartTemplates.ts:19-472 | the template table has the listed ids, popularities and categories |
| QuickStart.TableIdsDistinct | src/lib/quickStartTemplates.ts:19-472 | fourteen templates with pairwise distinct ids |
| QuickStart.TableConfigsComplete | src/lib/quickStartTemplates.ts:19-472 | every template fills in the type, the features, the stack and the metadata |
| QuickStart.FindById | src/lib/quickStartTemplates.ts:477-479 | a found template is in the table and carries the id; none is found exactly when no template does |
| QuickStart.FindByIdFirst | src/lib/quickStartTemplates.ts:478 | the lookup returns the first template carrying the id |
| QuickStart.FindByOwnId | src/lib/quickStartTemplates.ts:477-479 | with distinct ids, a template is found by its own id |
| QuickStart.SliceEnd | src/lib/quickStartTemplates.ts:487 | the index where `slice(0, limit)` stops lies within the sequence |
| QuickStart.PopularTemplates | src/lib/quickStartTemplates.ts:484-488 | copying, sorting in place and slicing gives exactly the specified popular list |
| QuickStart.PopularIsTop | src/lib/quickStartTemplates.ts:484-488 | `limit` templates (fewer when the table is shorter), ordered by popularity, taken from the table, none left out more popular than one kept |
| QuickStart.PopularIsStable | src/lib/quickStartTemplates.ts:486 | ties keep table order: the kept templates of one popularity are the first ones of the table with it |
| QuickStart.MostPopularFirst | src/lib/quickStartTemplates.ts:486 | when no popularity exceeds `m`, the sort puts the templates of popularity `m` first, in table order |
| QuickStart.TablePopularityFacts | src/lib/quickStartTemplates.ts:19-472 | the table has 14 templates and no popularity exceeds 5 |
| QuickStart.TopPopularIds | src/lib/quickStartTemplates.ts:19-472 | the templates of popularity 5 are the SaaS starter, the landing page and the portfolio, in table order |
| QuickStart.DefaultPopular | src/lib/quickStartTemplates.ts:484-488 | the default call returns the SaaS starter, the landing page and the portfolio |
| QuickStart.ByTag | src/lib/quickStartTemplates.ts:493-497 | a template is kept exactly when one of its tags, lower-cased, contains the lower-cased query |
| QuickStart.ByTagOrder | src/lib/quickStartTemplates.ts:493-497 | the matches keep their table order |
| QuickStart.ByTagEmpty | src/lib/quickStartTemplates.ts:493-497 | the empty query matches every template with a tag |
| QuickStart.ByTagIgnoresCase | src/lib/quickStartTemplates.ts:494-496 | queries equal up to case give the same templates |
| QuickStart.ByTagLowered | src/lib/quickStartTemplates.ts:494-496 | a query and its lower-case form give the same templates |
| QuickStart.ByCategory | src/lib/quickStartTemplates.ts:502-507 | `all` returns the table; any other category exactly the templates of that category |
| QuickStart.TallyPartition | src/lib/quickStartTemplates.ts:520-522 | every template falls in exactly one of the four categories |
| QuickStart.CountIsFilterLength | src/lib/quickStartTemplates.ts:512-526 | the count of a category is the length of that category's filter |
| QuickStart.CountsPartition | src/lib/quickStartTemplates.ts:512-526 | the four category counts add up to the `all` count |
| QuickStart.TableCounts | src/lib/quickStartTemplates.ts:19-472 | the table has seven web, two API, three tool and two other templates |
| QuickStart.CategoryCounts | src/lib/quickStartTemplates.ts:512-526 | the keys are `all` and the four categories; `all` is the length and each category its count |
| QuickStart.ToProjectConfig | src/lib/quickStartTemplates.ts:531-543 | the given name; the given description unless empty, else the template's; the template's type, features and stack (or empty ones); metadata recording the template's id |
| QuickStart.ConfigRemembersTemplate | src/lib/quickStartTemplates.ts:531-543 | looking up the recorded id finds the template the configuration came from, whose metadata it carries apart from that id |
| QuickStart.TemplatesFacts | src/lib/quickStartTemplates.ts:477-488 | in the table an id names one template, and the default popular list is the three of popularity 5 |
| QuickStart.TemplatesCounts | src/lib/quickStartTemplates.ts:512-526 | the counts on the table are 7 web, 2 API, 3 tool and 2 other |
| Sorting.SortDescInPlace | src/lib/quickStartTemplates.ts:486 | `Array.prototype.sort` with a descending comparator: the array ends up holding the stable descending order of its old contents (`SortDesc`) |
| Sorting.InsertInPlace | src/lib/quickStartTemplates.ts:486 | one insertion step: the first `i + 1` cells become the old prefix with the old `a[i]` inserted after every element whose key is at least its own; the rest of the array is unchanged |
| Sorting.SortDescSorted | src/lib/projectHistory.ts:37 | the sort puts keys in non-increasing order |
| Sorting.SortDescPermutation | src/lib/projectHistory.ts:37 | the sort is a permutation: the same elements with the same multiplicities |
| Sorting.SortDescStable | src/lib/projectHistory.ts:37 | the sort is stable: the elements with any one key keep their relative order |
| Sorting.InsertDescSorted | src/lib/quickStartTemplates.ts:486 | inserting into a sorted sequence keeps it sorted |
| Sorting.InsertDescPermutation | src/lib/quickStartTemplates.ts:486 | inserting adds exactly the one element |
| Sorting.InsertDescWithKey | src/lib/quickStartTemplates.ts:486 | inserting puts the new element after every element with the same key |
| Sorting.InsertDescAt | src/lib/quickStartTemplates.ts:486 | the new element goes right after the last element whose key is at least its own |
| ClaudeClient.StripClosingFence | src/lib/claudeClient.ts:304-306 | the result is a prefix of the input, and text not ending in a fence is unchanged |
| ClaudeClient.StripFences | src/lib/claudeClient.ts:302-307 | text not starting with a fence is unchanged, and stripping never lengthens the text |
| ClaudeClient.FirstOpener | src/lib/claudeClient.ts:310-313 | the index of the first `{` or `[`, with no opener before it; -1 exactly when there is none |
| ClaudeClient.LastCloser | src/lib/claudeClient.ts:315-318 | the index of the last `}` or `]`, with no closer after it; -1 exactly when there is none |
| ClaudeClient.JsonSlice | src/lib/claudeClient.ts:320-327 | no opener or no closer keeps the cleaned text; an opener before a closer gives the slice from the first opener to the last closer; a closer before the opener gives the text between them, as `substring` swaps its bounds |
| ClaudeClient.ExtractJsonFixedPoint | src/lib/claudeClient.ts:300-328 | text already starting with an opener and ending with a closer comes back unchanged |
| ClaudeClient.ExtractJsonIdempotent | src/lib/claudeClient.ts:300-328 | whenever the first opener precedes the last closer, extracting a second time changes nothing |
| ClaudeClient.SwappedBoundsExample | src/lib/claudeClient.ts:326 | `"} x {"` yields `" x "` through the swapped `substring` bounds |
| ClaudeClient.GetDefaultSuggestions | src/lib/claudeClient.ts:154-178 | website and api get their own tables, saas and every other type the saas table; the frontend/backend choices and feature counts of each |
| ClaudeClient.RecommendMcps | src/lib/claudeClient.ts:221-249 | an SDK failure or non-text content throws; a parsed `recommendations` array is returned as is; any parse failure returns the fixed fallback |
| ClaudeClient.FallbackIsRequiredPair | src/lib/claudeClient.ts:240-247 | the fallback is exactly `desktop-commander` then `github`, both required |
| ClaudeClient.GenerateTechStackSuggestions | src/lib/claudeClient.ts:125-149 | an SDK failure or non-text content throws; text always gives suggestions; a parse with features, stack and truthy reasoning is returned as parsed, and any result other than the type's defaults comes from such a parse |
| ErrorHandler.CodeNameInjective | src/lib/errorHandler.ts:36-94 | distinct catalogue entries have distinct code strings |
| ErrorHandler.Classify | src/lib/errorHandler.ts:107-153 | an `Error` is classified as network, timeout, unauthorized, disk-full or unknown, and as a network failure only when it is a `TypeError` |
| ErrorHandler.Make | src/lib/errorHandler.ts:22-30 | the error built from a catalogue entry carries that entry's code, user message and recoverability, and the original message |
| ErrorHandler.HandleError | src/lib/errorHandler.ts:98-162 | an application error comes back as it is, an `Error` is built from its classification, anything else is an unknown error carrying its string form |
| ErrorHandler.FetchNeedsTypeError | src/lib/errorHandler.ts:107-115 | "fetch" means a network failure on a `TypeError` and an unknown error otherwise |
| ErrorHandler.TimeoutBeforeUnauthorized | src/lib/errorHandler.ts:119-135 | a message containing both "401" and "timeout" is a recoverable timeout, because that rule is tested first |
| ErrorHandler.Status401NotRecoverable | src/lib/errorHandler.ts:128-135 | a message with "401" is an authorization failure and is not recoverable |
| ErrorHandler.DisplayErrorOptions | src/lib/errorHandler.ts:167-180 | the notification carries a Retry action exactly when the error is recoverable and a callback is given |
| ErrorHandler.RetryOnlyOnPersistent | src/lib/errorHandler.ts:168-170 | a Retry action appears only on a notification that stays until dismissed; an unrecoverable error closes after ten seconds without one |
| ErrorHandler.ValidateRequired | src/lib/errorHandler.ts:185-201 | the missing list is the specified one, and validation passes exactly when it is empty |
| ErrorHandler.MissingFieldsExact | src/lib/errorHandler.ts:191-195 | the missing list names exactly the requested fields whose value is falsy or blank, in request order, and is empty exactly when every field is present |
| ErrorHandler.BlankIsMissing | src/lib/errorHandler.ts:192 | a blank string counts as missing, as does an absent key |
| ErrorHandler.AsError | src/lib/errorHandler.ts:246 | the error kept after a failure is never a raw value: an `Error` is kept as it is |
| ErrorHandler.RetryWithBackoff | src/lib/errorHandler.ts:235-257 | at most `maxRetries` calls; every call before the last failed; a success returns the last call's value; a rethrow follows `maxRetries` failures and carries the last error; no attempt throws the fixed error; the waits are `baseDelay * 2^i` between attempts |
| ProjectHistory.HistoryNewestFirst | src/lib/projectHistory.ts:30-42 | the history is the stored items, a permutation of them sorted newest first, with items of equal time in stored order |
| ProjectHistory.Prepended | src/lib/projectHistory.ts:71-74 | never more than twenty items |
| ProjectHistory.PrependedShape | src/lib/projectHistory.ts:71-74 | the new item first, then the older items in order, as many as fit in twenty |
| ProjectHistory.SecondAddSuppressed | src/lib/projectHistory.ts:58-68 | after an add at time `t`, a second add of the same name before `t` plus one hour is a duplicate |
| ProjectHistory.Without | src/lib/projectHistory.ts:92 | an item is kept exactly when it was there and does not carry the id |
| ProjectHistory.WithoutKeepsOrder | src/lib/projectHistory.ts:92 | the items kept stay in their order |
| ProjectHistory.FindItem | src/lib/projectHistory.ts:118 | a found item is in the history and carries the id; nothing is found exactly when no item does |
| ProjectHistory.FindItemFirst | src/lib/projectHistory.ts:118 | the item found is the first one carrying the id |
| ProjectHistory.RemovedNotFound | src/lib/projectHistory.ts:89-123 | after removing an id, looking it up finds nothing |
| ProjectHistory.StatsConsistent | src/lib/projectHistory.ts:162-177 | templates plus custom projects make the total, and the last week is at most the total |
| ProjectHistory.History.constructor | src/lib/projectHistory.ts:24 | the storage entry starts as given |
| ProjectHistory.History.GetProjectHistory | src/lib/projectHistory.ts:30-42 | returns the stored items sorted newest first, or nothing for an absent or unparsable entry |
| ProjectHistory.History.AddToHistory | src/lib/projectHistory.ts:47-84 | a same-named item less than an hour old leaves the entry unchanged; otherwise the entry becomes the new item before the sorted history, cut to twenty |
| ProjectHistory.History.RemoveFromHistory | src/lib/projectHistory.ts:89-98 | the entry becomes the sorted history without the items carrying the id |
| ProjectHistory.History.ClearHistory | src/lib/projectHistory.ts:103-110 | the entry is removed and the history is empty |
| ProjectHistory.History.GetProjectFromHistory | src/lib/projectHistory.ts:115-123 | the first item of the sorted history carrying the id, or none |
| ProjectHistory.History.GetHistoryStats | src/lib/projectHistory.ts:162-177 | the counts of the sorted history: total, from a template, custom, and created in the last week |
| Auth.FirstAuthSegment | src/lib/auth.ts:22-23 | the segment found is the first `;`-separated segment whose trimmed text starts with `auth=`, and no earlier one does |
| Auth.FirstSegment | src/lib/auth.ts:22-27 | a header `key=value;rest` yields the segment `key=value` first, and its token is `value` |
| Auth.LeadingSegment | src/lib/auth.ts:18-29 | a header starting with `auth=<v>;` authenticates exactly when `v` is the access code, whatever follows |
| Auth.CookieRoundTrip | src/lib/auth.ts:18-37 | sending back a cookie written by the helpers authenticates exactly when its value is the access code |
| Auth.AuthCookieAuthenticates | src/lib/auth.ts:34-37 | the login cookie carries the access code, lasts seven days (604800 s) and authenticates |
| Auth.LogoutCookieRejected | src/lib/auth.ts:42-44 | the logout cookie has an empty value and `Max-Age=0`, and does not authenticate |
| Auth.NoAuthSegment | src/lib/auth.ts:19-25 | no header, or no segment starting with `auth=`, is not authenticated |
| Middleware.Gate | src/middleware/index.ts:10-52 | non-API paths and paths starting with a public prefix pass; any other path passes exactly when the `auth_token` cookie is `authenticated`, else 401 |
| Middleware.HealthzIsPublic | src/middleware/index.ts:17-25 | `/api/healthz` passes without a session because it starts with `/api/health` |
| Middleware.ProtectedNeedsSession | src/middleware/index.ts:33-48 | a protected API route without the session cookie is refused with 401 |
| AuthRoutes.LoginStatus | src/pages/api/auth/login.ts:16-75 | each status as an iff: 500 exactly on an unparsable body or a truthy non-string code, 400 exactly on a falsy code, 200 exactly when both codes trimmed are equal and the sent code is non-empty, 401 exactly when they differ |
| AuthRoutes.LoginResponse | src/pages/api/auth/login.ts:22-73 | the response has the status `LoginStatus` gives and reports success exactly on 200 |
| AuthRoutes.LoginThenVerify | src/pages/api/auth/login.ts:36-44 | after a successful login verify reports true and the middleware passes protected routes |
| AuthRoutes.FailedLoginKeepsJar | src/pages/api/auth/login.ts:55-73 | a login that does not answer 200 leaves the cookie jar unchanged |
| AuthRoutes.LogoutThenVerify | src/pages/api/auth/logout.ts:11-24 | after logout verify reports false, a second logout changes nothing, and protected routes are refused |
| AuthRoutes.DefaultCodeTrimmed | src/pages/api/auth/login.ts:33 | the default code `vibe2024` is unchanged by trimming |
| AuthRoutes.DefaultCodeLogsIn | src/pages/api/auth/login.ts:33-36 | with no code configured, a blank-free code logs in exactly when it is `vibe2024` |
| AuthRoutes.CookieJar.constructor | src/pages/api/auth/verify.ts:11-13 | a new jar holds the given cookie |
| AuthRoutes.CookieJar.Login | src/pages/api/auth/login.ts:16-75 | returns the login response and sets `auth_token=authenticated` exactly on 200, leaving the jar alone otherwise |
| AuthRoutes.CookieJar.Logout | src/pages/api/auth/logout.ts:11-24 | deletes the cookie whether or not it was present and answers 200 |
| AuthRoutes.CookieJar.Verify | src/pages/api/auth/verify.ts:11-19 | answers 200 with `authenticated` true exactly when the cookie is `authenticated`, changing nothing |
| RequestConfig.NameAndType | src/pages/api/generate.ts:43-61 | the name is `projectName` when non-empty, else `name`, and empty only when neither is given; the same for `projectType` and `type` |
| RequestConfig.StackLayers | src/pages/api/generate.ts:50-54 | every layer is present with at most one entry, and includes a technology exactly when the request chose it |
| RequestConfig.FeaturesAndMetadata | src/pages/api/generate.ts:43-61 | every feature is a required catalogue entry, the ids kept are the catalogued request ids in order, and missing metadata gets the defaults |
| GenerateRoute.CheckSpec | src/pages/api/generate.ts:24-90 | no session gives 401, whatever the body; with a session, a body that is not JSON or a null configuration gives 500; 400 "Missing project configuration" exactly when neither `projectName` nor `name` is set; 400 "Invalid project name" exactly when a name is given but nothing is left after sanitising; an accepted name is a non-empty folder name of lower-case letters, digits and hyphens, with no doubled hyphen, which sanitising again leaves unchanged |
| GenerateRoute.Criteria | src/pages/api/generate.ts:247 | one success criterion per responsibility, in order, each the fixed "Successfully completed" prefix followed by that responsibility |
| GenerateRoute.AgentDocSpec | src/pages/api/generate.ts:216-254 | an agent without collaborators is listed as working independently, otherwise its collaborators are listed in order; there is one criterion per responsibility, which starts with the prefix and ends with the responsibility |
| GenerateRoute.McpEntries | src/pages/api/generate.ts:137-146 | one enabled entry per recommended server, in order, copying its id, name, description and capabilities; an entry is required exactly when the server is marked required or is Desktop Commander or GitHub |
| GenerateRoute.FallbackEntriesRequired | src/pages/api/generate.ts:141 | when the recommendation call throws, the configuration has exactly two entries (the fallback servers), both required |
| GenerateRoute.BuildEnvExample | src/pages/api/generate.ts:419-452 | the blocks built by the successive appends are the general block and then, in order, the database, authentication and AI blocks whose category some feature has |
| GenerateRoute.EnvSectionsSpec | src/pages/api/generate.ts:419-452 | the general block comes first and only there; any other block is present exactly when some feature has its category; the file has one block per category present, plus the general one |
| GenerateRoute.CatalogueHasNoAi | src/lib/featureMapping.ts:19-73 | no feature of the catalogue has category `ai` |
| GenerateRoute.NoAiBlock | src/pages/api/generate.ts:443-449 | no catalogued feature is in the `ai` category, so the AI block never appears in a written `.env.example` |
| GenerateRoute.IndexForRequest | src/pages/api/generate.ts:457-493 | the entry point is `index.ts` exactly when the request chose TypeScript as backend, and `index.js` otherwise; it holds the API server stub exactly when the project type is `api` |
| GenerateRoute.IndexDiffersFromPreview | src/pages/api/generate.ts:488-493 | with a TypeScript frontend over a non-TypeScript backend, the preview tree names `index.ts` but this route writes `index.js` |
| GenerateRoute.WriteAgentFiles | src/pages/api/generate.ts:130-134 | the `forEach` writes one definition file per agent, in roster order, at `.claude/agents/<id>.md` |
| GenerateRoute.Post | src/pages/api/generate.ts:24-211 | the response, directories and files are the ones the checks, the analysis and the file system outcome determine (`Respond`); CheckSpec, ProduceCases and ProducedFiles state what that means |
| GenerateRoute.Generate | src/pages/api/generate.ts:96-198 | after the checks, the prompt, directories, files and response are the ones `Produce` determines |
| GenerateRoute.SuffixInjective | src/pages/api/generate.ts:132 | `id + ".md"` determines `id` |
| GenerateRoute.FixedNamesDistinct | src/pages/api/generate.ts:126-174 | the seven files other than the agent files have distinct paths, each at most two segments below the project |
| GenerateRoute.PrefixedDistinct | src/pages/api/generate.ts:101-174 | `path.join` of one root with distinct relative paths keeps them distinct |
| GenerateRoute.AgentPathsDistinct | src/pages/api/generate.ts:132 | agents with distinct ids get distinct files, each three segments below the project |
| GenerateRoute.WritePathsShape | src/pages/api/generate.ts:124-174 | the files are written in this order: the prompt, one file per agent, then the other six |
| GenerateRoute.WritesDistinct | src/pages/api/generate.ts:124-174 | when the agent ids are distinct, no two writes go to the same file |
| GenerateRoute.NoAgentWorksIndependently | src/pages/api/generate.ts:240-243 | every agent of a roster has collaborators, so no agent file of a generated project says "Works independently" |
| GenerateRoute.DirectoriesDistinct | src/pages/api/generate.ts:101-118 | six distinct directories are created: the project directory and five inside it |
| GenerateRoute.ProduceCases | src/pages/api/generate.ts:101-179 | success exactly when the file system succeeds; a failing `mkdirSync` gives 500 "Failed to create project directories" and nothing is written; a failing `writeFileSync` gives 500 "Failed to write project files" after all six directories were made |
| GenerateRoute.ProducedFiles | src/pages/api/generate.ts:124-198 | on success the response gives the project folder, the prompt path and the sanitised name, and counts the agents, servers and tasks; 7 + agents distinct writes: the returned prompt first, then each agent's file at `.claude/agents/<id>.md`, the MCP configuration, the `.env.example` blocks, and the entry point named after the backend |
| GenerateRoute.GeneratedAnalysis | src/pages/api/generate.ts:92-94 | the analysis behind a generated project has one agent per expected role, with distinct ids; the servers given; and as many tasks as the needs of the configuration call for |
| GenerateRoute.JoinStep | src/pages/api/generate.ts:78-79 | between a word and a word starting outside the separator class, a single separator character becomes one `-` |
| GenerateRoute.JoinWords | src/pages/api/generate.ts:78-79 | three words separated by single whitespace characters are joined by hyphens |
| GenerateRoute.SanitizeExample | src/pages/api/generate.ts:75-80 | `Test API Project` sanitises to `test-api-project` |
| AnalyzeRoute.Post | src/pages/api/analyze.ts:25-115 | the response is the one the session, the body and the servers the MCP step settled on determine (`Respond`); RespondSpec, AnalyzedConfig and AnalyzedResult state what that means |
| AnalyzeRoute.RespondSpec | src/pages/api/analyze.ts:30-113 | 401 exactly when there is no session; with a session, 500 exactly when the body is not a JSON object; 400 "Missing required fields" exactly when the name (`projectName` or `name`), the description or the type (`projectType` or `type`) is missing; 200 exactly when all three are present, and then the response carries an analysis |
| AnalyzeRoute.AnalyzedConfig | src/pages/api/analyze.ts:47-87 | the configuration analysed has the request's name, description and type, none empty, with `projectName` and `projectType` winning over `name` and `type`; metadata that is sent is kept; otherwise the default is built from the request's complexity, or `moderate`, with "2-4 weeks" and a team of 3 |
| AnalyzeRoute.AnalyzedResult | src/pages/api/analyze.ts:89-102 | a 200 response is the full analysis of that configuration: the servers the MCP step settled on, one agent per expected role, and every task assigned to one of those agents |
| AnalyzeRoute.SameConfigAsGenerate | src/pages/api/analyze.ts:64-87 | the same fields give the same name, description, type, features and tech stack as in `POST /api/generate`; when the request sends metadata or no complexity, the configurations are equal |
| QuestionsRoute.RemoveMarker | src/pages/api/generate-questions.ts:159 | a global replace of a marker and an optional following line break never lengthens the text; FenceRemoved and the lemmas below state which characters go |
| QuestionsRoute.FenceRemoved | src/pages/api/generate-questions.ts:159 | after every "```" and its optional line break are removed, no "```" is left: a backtick that is kept never joins others into a new fence, and a kept leading backtick was there before |
| QuestionsRoute.SliceLacks | src/pages/api/generate-questions.ts:159 | a piece of a text without the fence holds no fence either |
| QuestionsRoute.CleanHasNoFence | src/pages/api/generate-questions.ts:159 | whatever the model replies, the text handed to `JSON.parse` holds no code fence |
| QuestionsRoute.RemoveMarkerAbsent | src/pages/api/generate-questions.ts:159 | a text without the marker's first character is left unchanged |
| QuestionsRoute.PlainReply | src/pages/api/generate-questions.ts:159 | a reply without a backtick is only trimmed |
| QuestionsRoute.RemoveMarkerKeepsPrefix | src/pages/api/generate-questions.ts:159 | a prefix without the marker's first character is kept as it is, and only the rest is cleaned |
| QuestionsRoute.RemoveMarkerLeading | src/pages/api/generate-questions.ts:159 | a leading marker goes together with one line break after it, if there is one |
| QuestionsRoute.RemoveMarkerShort | src/pages/api/generate-questions.ts:159 | a text shorter than the marker is left unchanged |
| QuestionsRoute.FencedReply | src/pages/api/generate-questions.ts:159 | a reply wrapped in a "```json" block comes out as the block's body, trimmed |
| QuestionsRoute.NormalizedQuestions | src/pages/api/generate-questions.ts:172-180 | one question out per question in, in order; the text, placeholder and options are kept; a given id, type and category are kept, and a missing one becomes `q<position + 1>`, `textarea` or `other`; a question is required unless it says `required: false` |
| QuestionsRoute.IdsNonEmpty | src/pages/api/generate-questions.ts:173 | every question ends up with a non-empty id |
| QuestionsRoute.DefaultIdsDistinct | src/pages/api/generate-questions.ts:173 | when the model gives no ids, the ids filled in are pairwise distinct |
| QuestionsRoute.ErrorMessage | src/pages/api/generate-questions.ts:195-214 | the configuration message exactly when the error mentions "API key"; otherwise the timeout message exactly when it mentions "timeout"; the generic message exactly when it mentions neither |
| QuestionsRoute.CharBlocks | src/pages/api/generate-questions.ts:200-202 | a text cannot contain a phrase when one of the phrase's characters is missing from the text's head and the text's tail is too short to hold the rest of the phrase |
| QuestionsRoute.BlockedIsGeneric | src/pages/api/generate-questions.ts:198-205 | a message without `P` and without `m` before its last four characters gets the generic message |
| QuestionsRoute.InvalidResponseIsGeneric | src/pages/api/generate-questions.ts:163 | the route's own "invalid response format" error is shown to the user as the generic message |
| QuestionsRoute.InvalidQuestionsIsGeneric | src/pages/api/generate-questions.ts:168 | the route's own "invalid questions array" error is shown to the user as the generic message |
| QuestionsRoute.RespondOrder | src/pages/api/generate-questions.ts:30-83 | 401 exactly when there is no session; then 503 exactly when the API key is missing; then 400 "Invalid request format." exactly when the body is not JSON; then 400 for a missing name, description or type exactly when one is missing; the model's answer or error is reached only when all checks pass |
| QuestionsRoute.AnswerNotFailed | src/pages/api/generate-questions.ts:143-193 | once the model is asked, the route never answers with one of its own check failures |
| QuestionsRoute.AnswerThrows | src/pages/api/generate-questions.ts:143-169 | after the checks, the result is an error exactly when it is not questions: the SDK's own error; "AI returned invalid response format" when the cleaned text does not parse; "Invalid questions array in AI response" when it parses without a questions array |
| QuestionsRoute.AnswerQuestions | src/pages/api/generate-questions.ts:153-193 | questions come back exactly when the SDK answers and the cleaned text parses to a questions array; they are then those questions normalised, one per question, with the model's reasoning if it gave one and a non-empty default otherwise |

## Left out

- AI SDK calls (`messages.create` in `claudeClient.ts` and `generate-questions.ts`): each call's outcome is an input value, either a reply or a thrown error. The cached client (`getClient`) and the `suggest` route are not part of this model.
- `JSON.parse` is an abstract function parameter, and `JSON.stringify` is not modelled. File and prompt contents are represented by the values they are rendered from.
- The long literal texts are not modelled: README, `.gitignore`, Dockerfile, the prompt footer and protocol prose, the package scripts and the emoji. Only their presence and order are.
- `fs.mkdirSync` and `fs.writeFileSync` in `generate.ts` are an input outcome (`GenerateRoute.IoOutcome`). What a partly completed run leaves on disk is not modelled. The ZIP download route is not part of this model.
- GenerateRoute.Post: takes as an input the MCP list that `analyzeMCPs` settles on, not the AI call's outcome. `Analysis.AnalyzeMcps` relates the two, and `Analysis.Analyze` composes them with the rest of the analysis.
- AnalyzeRoute.Post: takes the settled MCP list as an input, for the same reason as `GenerateRoute.Post`.
- AnalyzeRoute.RespondSpec: the message of a 500 response is the runtime's error message. It is not modelled.
- QuestionsRoute.RespondOrder: a `null` body throws a `TypeError` when it is destructured. That error is modelled directly as the generic 500 message, since its text names neither an API key nor a timeout.
- Clocks and random ids are parameters: `Date.now`, `new Date()` and `Math.random`. `createdAt` in a configuration's metadata is not modelled.
- `retryWithBackoff` does not sleep in the model: its delays are returned as a list.
- The browser glue is not part of this model: local storage (a field of `ProjectHistory.History`), `window.dispatchEvent`, notifications, button state, the API client and console logging.
- Strings are ASCII: lower-casing, `trim` and the `\s` class cover only ASCII characters. An absent optional string is written as `""`, since both are falsy.
- The health route, `apiTypes.ts` and the test scripts are not part of this model.
- Keys inherited from `Object.prototype` are not modelled. The model looks up only the table's own keys in these plain-object tables: the feature catalogue, the recommendation table, the default-suggestion table and a request body. In the program, an inherited name such as `constructor` or `toString` finds a built-in function instead. The lines below name the members this affects.
- GetFeatureDefinition: gives `None` for an inherited name. `featureMapping.ts:127` returns the built-in member, for example the `Object` function for `constructor`.
- MapFeaturesToProjectFeatures: drops an inherited name. The program emits a required feature named after the built-in function (for example `Object`), with an undefined id and category (`featureMapping.ts:99-117`). So `MapIdsSpec`, `MapFeaturesSpec` and `RequestConfig.FeaturesAndMetadata` state that every feature is a catalogue entry only for the model's own-key lookup. `GenerateRoute.NoAiBlock` still holds for the program, because such a feature's category is undefined and so never `ai`.
- GetRecommendedFeatures: gives `[]` for an inherited name. `featureMapping.ts:196` returns the built-in function, which is truthy.
- GetDefaultSuggestions: gives the saas table for an inherited name. `claudeClient.ts:177` returns the built-in member, for example `Object` for `constructor`.
- ValidateRequired: reports an inherited field name such as `constructor` as missing. In the program, `data[field]` at `errorHandler.ts:191-192` finds the inherited member, so that field is never missing. `MissingFieldsExact` states the model's own-key behaviour.
- `path.join` is modelled as concatenating segments with `/` (ProjectCreator.JoinPath, and the paths in GenerateRoute). It does not normalise `.`, `..` or repeated separators.
- QuestionsRoute.RemoveMarker: its own contract only bounds the length. What it removes is stated by the lemmas beside it (`FenceRemoved`, `RemoveMarkerLeading`, `RemoveMarkerKeepsPrefix`, `RemoveMarkerAbsent`).

## Findings

| source | as written | input that shows it | evidently intended | confidence | as-written member | corrected member |
|---|---|---|---|---|---|---|
| src/lib/projectCreator.ts:45-48 | `analyze` is async but is not awaited, so `generate` reads `.project.name` of a Promise and throws a `TypeError`; `createProject` always returns `success: false` with empty paths | any configuration | await the analysis, then return success with the project and prompt paths | not executed | ProjectCreator.Creator.CreateProjectAsWritten | ProjectCreator.Creator.CreateProject |
