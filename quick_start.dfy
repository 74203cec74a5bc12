/**
 * The quick-start templates: fourteen pre-configured projects, looked up by
 * id, ranked by popularity, filtered by tag or category, counted per
 * category, and turned into a full project configuration.
 */
module QuickStart {
  import opened Wrappers
  import opened Strings
  import opened Seqs
  import opened Sorting
  import opened Types

  datatype Category = Web | Api | Tool | Other

  /** `Partial<ProjectConfig>` as the templates fill it in. */
  datatype PartialConfig = PartialConfig(
    projectType: Option<string>,
    features: Option<seq<Feature>>,
    techStack: Option<TechStack>,
    metadata: Option<Metadata>)

  /** A template; `popularity` runs from 1 to 5. The icon and the time estimate are display text and are left out. */
  datatype Template = Template(
    id: string,
    name: string,
    description: string,
    popularity: int,
    tags: seq<string>,
    category: Category,
    config: PartialConfig)

  function F(id: string, name: string, category: string, required: bool): Feature {
    Feature(id, name, category, required, None)
  }

  function Stack(frontend: seq<string>, backend: seq<string>, database: seq<string>): TechStack {
    TechStack(Some(frontend), Some(backend), Some(database))
  }


  /*
   * `QUICK_START_TEMPLATES`. The table is held column by column, one
   * sequence per field in the order of the table, and `Templates` zips the
   * columns back into records; each fact about the table below reads only
   * the columns it is about.
   */
  const TableIds: seq<string> := [
    "saas-starter",
    "api-microservice",
    "landing-page",
    "ecommerce-store",
    "blog-platform",
    "admin-dashboard",
    "cli-tool",
    "mobile-backend",
    "chrome-extension",
    "discord-bot",
    "vscode-extension",
    "docs-site",
    "portfolio",
    "data-pipeline"
  ]
  const TableNames: seq<string> := [
    "SaaS Starter Kit",
    "API Microservice",
    "Marketing Landing Page",
    "E-Commerce Store",
    "Blog Platform",
    "Admin Dashboard",
    "CLI Tool",
    "Mobile App Backend",
    "Chrome Extension",
    "Discord Bot",
    "VS Code Extension",
    "Documentation Site",
    "Portfolio Website",
    "Data Pipeline"
  ]
  const TableDescriptions: seq<string> := [
    "Full-featured SaaS application with authentication, payments, and admin panel",
    "Production-ready REST API with authentication, rate limiting, and documentation",
    "Modern landing page with analytics, contact form, and CMS integration",
    "Complete online store with cart, checkout, inventory, and order management",
    "Content management system with Markdown support, comments, and SEO",
    "Data visualization dashboard with real-time updates and user management",
    "Command-line tool with interactive prompts and configuration management",
    "API backend for mobile apps with push notifications and real-time sync",
    "Browser extension with popup, background scripts, and content injection",
    "Discord bot with slash commands, events, and database integration",
    "Visual Studio Code extension with commands, snippets, and language support",
    "Documentation website with search, versioning, and API reference",
    "Personal portfolio with projects showcase, blog, and contact form",
    "ETL pipeline for data processing, transformation, and scheduling"
  ]
  const TablePopularity: seq<int> := [5, 4, 5, 4, 3, 4, 2, 3, 4, 4, 3, 3, 5, 2]
  const TableTags: seq<seq<string>> := [
    ["saas", "authentication", "payments", "dashboard"],
    ["api", "microservice", "backend", "rest"],
    ["website", "landing", "marketing", "seo"],
    ["ecommerce", "shop", "payments", "inventory"],
    ["blog", "content", "cms", "markdown"],
    ["dashboard", "analytics", "admin", "charts"],
    ["cli", "tool", "automation", "terminal"],
    ["mobile", "api", "backend", "realtime"],
    ["extension", "browser", "chrome", "plugin"],
    ["discord", "bot", "automation", "chat"],
    ["vscode", "extension", "editor", "tools"],
    ["docs", "documentation", "knowledge", "wiki"],
    ["portfolio", "personal", "showcase", "resume"],
    ["etl", "data", "pipeline", "processing"]
  ]
  const TableCategories: seq<Category> := [Web, Api, Web, Web, Web, Web, Tool, Api, Tool, Other, Tool, Web, Web, Other]
  const TableConfigs: seq<PartialConfig> := [
    PartialConfig(Some("saas"),
        Some([
        F("auth-oauth", "OAuth Authentication", "authentication", true),
        F("payment-stripe", "Stripe Payments", "payment", true),
        F("db-postgresql", "PostgreSQL Database", "database", true),
        F("ui-admin", "Admin Dashboard", "ui", false),
        F("api-rest", "REST API", "api", true),
        F("email-sendgrid", "Email Integration", "communication", false),
        F("storage-s3", "File Storage", "storage", false),
        F("analytics-mixpanel", "Analytics", "analytics", false)]),
        Some(Stack(["Next.js", "TypeScript", "Tailwind CSS"], ["Node.js", "Express", "Prisma"], ["PostgreSQL", "Redis"])),
        Some(Metadata("moderate", "2-3 weeks", 4, None))),
    PartialConfig(Some("api"),
        Some([
        F("auth-jwt", "JWT Authentication", "authentication", true),
        F("api-rest", "RESTful Endpoints", "api", true),
        F("db-mongodb", "MongoDB Database", "database", true),
        F("api-ratelimit", "Rate Limiting", "security", true),
        F("api-docs", "Swagger Documentation", "documentation", false),
        F("monitoring-prometheus", "Monitoring", "monitoring", false),
        F("cache-redis", "Redis Caching", "performance", false)]),
        Some(Stack([], ["Node.js", "Express", "TypeScript"], ["MongoDB", "Redis"])),
        Some(Metadata("simple", "1 week", 2, None))),
    PartialConfig(Some("website"),
        Some([
        F("ui-responsive", "Responsive Design", "ui", true),
        F("seo-optimization", "SEO Optimization", "marketing", true),
        F("analytics-ga", "Google Analytics", "analytics", false),
        F("form-contact", "Contact Form", "communication", true),
        F("cms-contentful", "CMS Integration", "content", false),
        F("animation-framer", "Animations", "ui", false)]),
        Some(Stack(["Astro", "TypeScript", "Tailwind CSS"], [], [])),
        Some(Metadata("simple", "3-5 days", 1, None))),
    PartialConfig(Some("saas"),
        Some([
        F("cart-checkout", "Shopping Cart", "ecommerce", true),
        F("payment-stripe", "Payment Processing", "payment", true),
        F("inventory-management", "Inventory System", "ecommerce", true),
        F("order-tracking", "Order Management", "ecommerce", true),
        F("auth-customers", "Customer Accounts", "authentication", true),
        F("search-algolia", "Product Search", "search", false),
        F("reviews-ratings", "Reviews System", "social", false),
        F("email-notifications", "Email Notifications", "communication", false)]),
        Some(Stack(["Next.js", "TypeScript", "Tailwind CSS"], ["Node.js", "Express", "TypeScript"], ["PostgreSQL", "Redis"])),
        Some(Metadata("complex", "3-4 weeks", 4, None))),
    PartialConfig(Some("website"),
        Some([
        F("cms-markdown", "Markdown Editor", "content", true),
        F("auth-authors", "Author Management", "authentication", true),
        F("comments-system", "Comments System", "social", false),
        F("seo-optimization", "SEO Features", "marketing", true),
        F("rss-feed", "RSS Feed", "content", false),
        F("search-posts", "Search Function", "search", false)]),
        Some(Stack(["Astro", "MDX", "Tailwind CSS"], ["Node.js"], ["SQLite"])),
        Some(Metadata("simple", "1 week", 2, None))),
    PartialConfig(Some("saas"),
        Some([
        F("charts-visualization", "Data Visualization", "ui", true),
        F("realtime-updates", "Real-time Updates", "realtime", true),
        F("auth-rbac", "Role-Based Access", "authentication", true),
        F("export-reports", "Report Generation", "reporting", false),
        F("audit-logs", "Audit Logging", "monitoring", false),
        F("notifications", "Notifications System", "communication", false)]),
        Some(Stack(["React", "TypeScript", "Material-UI"], ["Node.js", "GraphQL"], ["PostgreSQL"])),
        Some(Metadata("moderate", "2 weeks", 3, None))),
    PartialConfig(Some("cli-tool"),
        Some([
        F("cli-commands", "Command Structure", "core", true),
        F("cli-prompts", "Interactive Prompts", "ui", true),
        F("config-management", "Config Files", "configuration", true),
        F("cli-colors", "Colored Output", "ui", false),
        F("cli-progress", "Progress Bars", "ui", false)]),
        Some(Stack([], ["Node.js", "TypeScript"], [])),
        Some(Metadata("simple", "3-5 days", 1, None))),
    PartialConfig(Some("api"),
        Some([
        F("auth-mobile", "Mobile Authentication", "authentication", true),
        F("push-notifications", "Push Notifications", "communication", true),
        F("realtime-sync", "Real-time Sync", "realtime", true),
        F("file-upload", "File Upload", "storage", false),
        F("offline-support", "Offline Support", "performance", false),
        F("analytics-mobile", "Mobile Analytics", "analytics", false)]),
        Some(Stack([], ["Node.js", "Socket.io", "TypeScript"], ["MongoDB", "Redis"])),
        Some(Metadata("moderate", "2 weeks", 3, None))),
    PartialConfig(Some("desktop-app"),
        Some([
        F("extension-popup", "Popup Interface", "ui", true),
        F("background-script", "Background Scripts", "automation", true),
        F("content-injection", "Content Scripts", "automation", true),
        F("storage-local", "Local Storage", "storage", true),
        F("api-integration", "API Integration", "api", false),
        F("settings-page", "Options Page", "ui", false)]),
        Some(Stack(["TypeScript", "React", "Webpack"], [], [])),
        Some(Metadata("simple", "3-5 days", 1, None))),
    PartialConfig(Some("other"),
        Some([
        F("discord-commands", "Slash Commands", "automation", true),
        F("discord-events", "Event Handlers", "automation", true),
        F("db-persistence", "Data Persistence", "database", true),
        F("moderation", "Moderation Tools", "automation", false),
        F("music-player", "Music Playback", "media", false),
        F("api-external", "External APIs", "api", false)]),
        Some(Stack([], ["Node.js", "Discord.js", "TypeScript"], ["SQLite"])),
        Some(Metadata("simple", "3-5 days", 1, None))),
    PartialConfig(Some("other"),
        Some([
        F("vscode-commands", "Custom Commands", "automation", true),
        F("code-snippets", "Code Snippets", "automation", true),
        F("syntax-highlighting", "Syntax Highlighting", "ui", false),
        F("quick-fix", "Quick Fix Provider", "automation", false),
        F("tree-view", "Tree View Panel", "ui", false),
        F("webview", "Webview UI", "ui", false)]),
        Some(Stack(["TypeScript"], ["Node.js"], [])),
        Some(Metadata("simple", "3-5 days", 1, None))),
    PartialConfig(Some("website"),
        Some([
        F("docs-markdown", "Markdown Docs", "content", true),
        F("search-docs", "Full-text Search", "search", true),
        F("versioning", "Version Control", "content", true),
        F("api-reference", "API Documentation", "documentation", false),
        F("dark-mode", "Dark Mode", "ui", false),
        F("i18n", "Internationalization", "localization", false)]),
        Some(Stack(["Astro", "TypeScript", "Tailwind CSS"], [], [])),
        Some(Metadata("simple", "3-5 days", 1, None))),
    PartialConfig(Some("website"),
        Some([
        F("project-showcase", "Project Gallery", "content", true),
        F("blog-posts", "Blog Section", "content", false),
        F("contact-form", "Contact Form", "communication", true),
        F("resume-download", "Resume/CV", "content", true),
        F("animations", "Smooth Animations", "ui", false),
        F("seo-meta", "SEO Optimization", "marketing", true)]),
        Some(Stack(["Astro", "TypeScript", "Tailwind CSS"], [], [])),
        Some(Metadata("simple", "2-3 days", 1, None))),
    PartialConfig(Some("other"),
        Some([
        F("data-extraction", "Data Extraction", "data", true),
        F("data-transform", "Data Transformation", "data", true),
        F("data-loading", "Data Loading", "data", true),
        F("scheduler", "Job Scheduling", "automation", true),
        F("error-handling", "Error Handling", "monitoring", true),
        F("monitoring", "Pipeline Monitoring", "monitoring", false)]),
        Some(Stack([], ["Python", "Apache Airflow"], ["PostgreSQL"])),
        Some(Metadata("moderate", "1-2 weeks", 2, None)))]

  function Assemble(ids: seq<string>, names: seq<string>, descriptions: seq<string>, popularity: seq<int>,
                    tags: seq<seq<string>>, categories: seq<Category>, configs: seq<PartialConfig>): seq<Template>
    requires |names| == |descriptions| == |popularity| == |tags| == |categories| == |configs| == |ids|
  {
    seq(|ids|, i requires 0 <= i < |ids| =>
      Template(ids[i], names[i], descriptions[i], popularity[i], tags[i], categories[i], configs[i]))
  }

  const Templates: seq<Template> :=
    Assemble(TableIds, TableNames, TableDescriptions, TablePopularity, TableTags, TableCategories, TableConfigs)

  function Ids(ts: seq<Template>): (r: seq<string>)
    ensures |r| == |ts| && forall i :: 0 <= i < |ts| ==> r[i] == ts[i].id
  {
    seq(|ts|, i requires 0 <= i < |ts| => ts[i].id)
  }

  function Popularity(t: Template): int { t.popularity }

  function Popularities(ts: seq<Template>): (r: seq<int>)
    ensures |r| == |ts| && forall i :: 0 <= i < |ts| ==> r[i] == ts[i].popularity
  {
    seq(|ts|, i requires 0 <= i < |ts| => ts[i].popularity)
  }

  function Categories(ts: seq<Template>): (r: seq<Category>)
    ensures |r| == |ts| && forall i :: 0 <= i < |ts| ==> r[i] == ts[i].category
  {
    seq(|ts|, i requires 0 <= i < |ts| => ts[i].category)
  }

  /** Each column of the assembled table is the column it was built from. */
  lemma AssembleColumns(ids: seq<string>, names: seq<string>, descriptions: seq<string>, popularity: seq<int>,
                        tags: seq<seq<string>>, categories: seq<Category>, configs: seq<PartialConfig>)
    requires |names| == |descriptions| == |popularity| == |tags| == |categories| == |configs| == |ids|
    ensures var ts := Assemble(ids, names, descriptions, popularity, tags, categories, configs);
      Ids(ts) == ids && Popularities(ts) == popularity && Categories(ts) == categories &&
      forall i :: 0 <= i < |ts| ==> ts[i].config == configs[i] && ts[i].tags == tags[i]
  {
  }

  /** `Templates` has the table's columns. */
  lemma TemplatesColumns()
    ensures Ids(Templates) == TableIds && Popularities(Templates) == TablePopularity
    ensures Categories(Templates) == TableCategories
  {
    AssembleColumns(TableIds, TableNames, TableDescriptions, TablePopularity, TableTags, TableCategories, TableConfigs);
  }

  /** The template ids are pairwise distinct, so an id names one template. */
  lemma TableIdsDistinct()
    ensures |TableIds| == 14 && Distinct(TableIds)
  {
  }

  /** Every template fills in the type, the features, the stack and the metadata. */
  lemma TableConfigsComplete()
    ensures |TableConfigs| == 14
    ensures forall i :: 0 <= i < |TableConfigs| ==>
      TableConfigs[i].projectType.Some? && TableConfigs[i].features.Some? &&
      TableConfigs[i].techStack.Some? && TableConfigs[i].metadata.Some?
  {
  }

  // ---------------------------------------------------------------------
  // getTemplateById

  /** `find(t => t.id === id)`: the first template carrying `id`. */
  function FindById(ts: seq<Template>, id: string): (r: Option<Template>)
    ensures r.Some? ==> r.value in ts && r.value.id == id
    ensures r.None? <==> forall i :: 0 <= i < |ts| ==> ts[i].id != id
    decreases |ts|
  {
    if ts == [] then None
    else if ts[0].id == id then Some(ts[0])
    else FindById(ts[1..], id)
  }

  /** The lookup returns the first template with the id, not a later one. */
  lemma {:induction false} FindByIdFirst(ts: seq<Template>, k: nat)
    requires k < |ts|
    requires forall j :: 0 <= j < k ==> ts[j].id != ts[k].id
    ensures FindById(ts, ts[k].id) == Some(ts[k])
    decreases k
  {
    if k > 0 {
      FindByIdFirst(ts[1..], k - 1);
    }
  }

  /** With distinct ids, looking a template up by its own id finds it. */
  lemma FindByOwnId(ts: seq<Template>, k: nat)
    requires Distinct(Ids(ts))
    requires k < |ts|
    ensures FindById(ts, ts[k].id) == Some(ts[k])
  {
    forall j | 0 <= j < k
      ensures ts[j].id != ts[k].id
    {
      assert Ids(ts)[j] != Ids(ts)[k];
    }
    FindByIdFirst(ts, k);
  }

  // ---------------------------------------------------------------------
  // getPopularTemplates

  /** The `limit` used when none is given. */
  const DefaultLimit := 3

  /** The index where `slice(0, end)` stops on a sequence of length `len`: a negative end counts back from the end. */
  function SliceEnd(len: nat, end: int): (k: nat)
    ensures k <= len
  {
    if end < 0 then (if len + end < 0 then 0 else len + end)
    else if end < len then end
    else len
  }

  /** `[...ts].sort((a, b) => b.popularity - a.popularity).slice(0, limit)`. */
  function PopularOf(ts: seq<Template>, limit: int): seq<Template> {
    SortDesc(ts, Popularity)[..SliceEnd(|ts|, limit)]
  }

  /** Copies the table into an array, sorts the copy in place and keeps its first `limit` entries. */
  method PopularTemplates(ts: seq<Template>, limit: int) returns (r: seq<Template>)
    ensures r == PopularOf(ts, limit)
  {
    var a := new Template[|ts|](i requires 0 <= i < |ts| => ts[i]);
    assert a[..] == ts;
    SortDescInPlace(a, Popularity);
    r := a[..SliceEnd(a.Length, limit)];
  }

  /**
   * The result holds `limit` templates (fewer when the table is shorter),
   * ordered by popularity, drawn from the table, and no template left out
   * is more popular than one kept.
   */
  lemma PopularIsTop(ts: seq<Template>, limit: int)
    ensures var r := PopularOf(ts, limit);
      (0 <= limit ==> |r| == if limit < |ts| then limit else |ts|) &&
      SortedDesc(r, Popularity) &&
      multiset(r) <= multiset(ts) &&
      forall i, y :: 0 <= i < |r| && y in multiset(ts) - multiset(r) ==> r[i].popularity >= y.popularity
  {
    var s := SortDesc(ts, Popularity);
    SortDescSorted(ts, Popularity);
    SortDescPermutation(ts, Popularity);
    SortedPrefixOnTop(s, Popularity, SliceEnd(|ts|, limit));
  }

  /**
   * Ties keep table order: among the templates of popularity `k`, the ones
   * kept are the first ones of the table, in table order.
   */
  lemma PopularIsStable(ts: seq<Template>, limit: int, k: int)
    ensures var w := WithKey(PopularOf(ts, limit), Popularity, k);
      |w| <= |WithKey(ts, Popularity, k)| && WithKey(ts, Popularity, k)[..|w|] == w
  {
    var s := SortDesc(ts, Popularity);
    var n := SliceEnd(|ts|, limit);
    assert s == s[..n] + s[n..];
    WithKeyAppend(s[..n], s[n..], Popularity, k);
    SortDescStable(ts, Popularity, k);
  }

  /** The ids, in table order, of the templates whose popularity is `k`. */
  function IdsWithPopularity(ids: seq<string>, popularity: seq<int>, k: int): seq<string>
    requires |ids| == |popularity|
    decreases |ids|
  {
    if ids == [] then []
    else (if popularity[0] == k then [ids[0]] else []) + IdsWithPopularity(ids[1..], popularity[1..], k)
  }

  lemma {:induction false} IdsWithKey(ts: seq<Template>, k: int)
    ensures Ids(WithKey(ts, Popularity, k)) == IdsWithPopularity(Ids(ts), Popularities(ts), k)
    decreases |ts|
  {
    if ts != [] {
      var x, rest := ts[0], ts[1..];
      var h := if x.popularity == k then [x] else [];
      var w := WithKey(rest, Popularity, k);
      IdsWithKey(rest, k);
      assert ts == [x] + rest;
      WithKeyCons(x, rest, Popularity, k);
      IdsAppend(h, w);
      IdsCons(x, rest);
      IdsOfHead(x, k);
      IdsWithPopularityCons(x.id, Ids(rest), x.popularity, Popularities(rest), k);
    }
  }

  lemma IdsOfHead(x: Template, k: int)
    ensures Ids(if x.popularity == k then [x] else []) == if x.popularity == k then [x.id] else []
  {
  }

  lemma IdsWithPopularityCons(id: string, ids: seq<string>, p: int, popularity: seq<int>, k: int)
    requires |ids| == |popularity|
    ensures IdsWithPopularity([id] + ids, [p] + popularity, k) ==
      (if p == k then [id] else []) + IdsWithPopularity(ids, popularity, k)
  {
    assert ([id] + ids)[1..] == ids && ([p] + popularity)[1..] == popularity;
  }

  /** `Ids` distributes over concatenation. */
  lemma IdsAppend(a: seq<Template>, b: seq<Template>)
    ensures Ids(a + b) == Ids(a) + Ids(b)
  {
    assert forall i :: 0 <= i < |a| + |b| ==> Ids(a + b)[i] == (Ids(a) + Ids(b))[i];
  }

  /** The id and popularity columns of a template put in front of a list. */
  lemma IdsCons(x: Template, rest: seq<Template>)
    ensures Ids([x] + rest) == [x.id] + Ids(rest)
    ensures Popularities([x] + rest) == [x.popularity] + Popularities(rest)
  {
    assert Ids([x] + rest) == [x.id] + Ids(rest);
    assert Popularities([x] + rest) == [x.popularity] + Popularities(rest);
  }

  /** When no popularity exceeds `m`, the sort puts the templates of popularity `m` first, in table order. */
  lemma MostPopularFirst(ts: seq<Template>, m: int)
    requires forall i :: 0 <= i < |ts| ==> ts[i].popularity <= m
    ensures var w := WithKey(ts, Popularity, m);
      |w| <= |ts| && SortDesc(ts, Popularity)[..|w|] == w
  {
    var s := SortDesc(ts, Popularity);
    SortDescSorted(ts, Popularity);
    SortDescPermutation(ts, Popularity);
    forall i | 0 <= i < |s|
      ensures s[i].popularity <= m
    {
      assert s[i] in multiset(ts);
    }
    SortedMaxBlock(s, Popularity, m);
    SortDescStable(ts, Popularity, m);
  }

  lemma TablePopularityFacts()
    ensures |TablePopularity| == 14
    ensures forall i :: 0 <= i < |TablePopularity| ==> TablePopularity[i] <= 5
  {
  }

  lemma TopPopularIds()
    ensures IdsWithPopularity(TableIds, TablePopularity, 5) == ["saas-starter", "landing-page", "portfolio"]
  {
    var a := ["saas-starter", "api-microservice", "landing-page"];
    var b := ["ecommerce-store", "blog-platform", "admin-dashboard", "cli-tool", "mobile-backend",
              "chrome-extension", "discord-bot", "vscode-extension", "docs-site"];
    var c := ["portfolio", "data-pipeline"];
    var head, middle, last := [5, 4, 5], [4, 3, 4, 2, 3, 4, 4, 3, 3], [5, 2];
    assert TableIds == (a + b) + c;
    assert TablePopularity == (head + middle) + last;
    TopPopularPositions(a, b, c, head, middle, last);
  }

  /** Popularity 5 sits at the first and third of the first three rows and the first of the last two. */
  lemma TopPopularPositions(a: seq<string>, b: seq<string>, c: seq<string>,
                            head: seq<int>, middle: seq<int>, last: seq<int>)
    requires |a| == 3 && |b| == 9 && |c| == 2
    requires head == [5, 4, 5] && middle == [4, 3, 4, 2, 3, 4, 4, 3, 3] && last == [5, 2]
    ensures IdsWithPopularity((a + b) + c, (head + middle) + last, 5) == [a[0], a[2], c[0]]
  {
    IdsWithPopularityAppend(a + b, c, head + middle, last, 5);
    IdsWithPopularityAppend(a, b, head, middle, 5);
    TopOfFirstRows(a);
    TopOfMiddleRows(b);
    TopOfLastRows(c);
  }

  lemma TopOfFirstRows(ids: seq<string>)
    requires |ids| == 3
    ensures IdsWithPopularity(ids, [5, 4, 5], 5) == [ids[0], ids[2]]
  {
    assert [5, 4, 5][1..] == [4, 5] && [4, 5][1..] == [5];
    assert IdsWithPopularity(ids[1..][1..], [5], 5) == [ids[2]];
  }

  lemma TopOfMiddleRows(ids: seq<string>)
    requires |ids| == 9
    ensures IdsWithPopularity(ids, [4, 3, 4, 2, 3, 4, 4, 3, 3], 5) == []
  {
    var middle := [4, 3, 4, 2, 3, 4, 4, 3, 3];
    assert forall i :: 0 <= i < |middle| ==> middle[i] < 5;
    IdsWithPopularityNone(ids, middle, 5);
  }

  lemma TopOfLastRows(ids: seq<string>)
    requires |ids| == 2
    ensures IdsWithPopularity(ids, [5, 2], 5) == [ids[0]]
  {
    assert [5, 2][1..] == [2];
    assert IdsWithPopularity(ids[1..], [2], 5) == [];
  }

  lemma {:induction false} IdsWithPopularityAppend(ids: seq<string>, more: seq<string>,
                                                   popularity: seq<int>, morePopularity: seq<int>, k: int)
    requires |ids| == |popularity| && |more| == |morePopularity|
    ensures IdsWithPopularity(ids + more, popularity + morePopularity, k)
         == IdsWithPopularity(ids, popularity, k) + IdsWithPopularity(more, morePopularity, k)
    decreases |ids|
  {
    if ids == [] {
      assert ids + more == more && popularity + morePopularity == morePopularity;
    } else {
      var h := if popularity[0] == k then [ids[0]] else [];
      IdsWithPopularityAppend(ids[1..], more, popularity[1..], morePopularity, k);
      assert (ids + more)[0] == ids[0] && (ids + more)[1..] == ids[1..] + more;
      assert (popularity + morePopularity)[0] == popularity[0];
      assert (popularity + morePopularity)[1..] == popularity[1..] + morePopularity;
      AppendAssoc(h, IdsWithPopularity(ids[1..], popularity[1..], k), IdsWithPopularity(more, morePopularity, k));
    }
  }

  lemma {:induction false} IdsWithPopularityNone(ids: seq<string>, popularity: seq<int>, k: int)
    requires |ids| == |popularity|
    requires forall i :: 0 <= i < |popularity| ==> popularity[i] != k
    ensures IdsWithPopularity(ids, popularity, k) == []
    decreases |ids|
  {
    if ids != [] {
      IdsWithPopularityNone(ids[1..], popularity[1..], k);
    }
  }

  /**
   * The default call returns the three templates of top popularity (5) in
   * table order: the SaaS starter, the landing page and the portfolio.
   */
  lemma DefaultPopular(ts: seq<Template>)
    requires Ids(ts) == TableIds && Popularities(ts) == TablePopularity
    ensures Ids(PopularOf(ts, DefaultLimit)) == ["saas-starter", "landing-page", "portfolio"]
  {
    TablePopularityFacts();
    TopPopularIds();
    forall i | 0 <= i < |ts|
      ensures ts[i].popularity <= 5
    {
      assert Popularities(ts)[i] == ts[i].popularity;
    }
    MostPopularFirst(ts, 5);
    IdsWithKey(ts, 5);
  }

  // ---------------------------------------------------------------------
  // getTemplatesByTag

  /** Some tag of `t` contains `tag`, both lower-cased. */
  predicate TagMatches(t: Template, tag: string) {
    exists i :: 0 <= i < |t.tags| && Contains(LowerStr(t.tags[i]), LowerStr(tag))
  }

  function ByTag(ts: seq<Template>, tag: string): (r: seq<Template>)
    ensures forall t :: t in r <==> t in ts && TagMatches(t, tag)
  {
    Filter(ts, t => TagMatches(t, tag))
  }

  /** The matches keep their order in the table. */
  lemma ByTagOrder(ts: seq<Template>, tag: string)
    ensures IsSubsequence(ByTag(ts, tag), ts)
  {
    FilterIsSubsequence(ts, t => TagMatches(t, tag));
  }

  /** The empty tag is contained in every tag, so it matches every template that has a tag. */
  lemma ByTagEmpty(ts: seq<Template>)
    requires forall i :: 0 <= i < |ts| ==> ts[i].tags != []
    ensures ByTag(ts, "") == ts
  {
    forall i | 0 <= i < |ts|
      ensures TagMatches(ts[i], "")
    {
      ContainsEmpty(LowerStr(ts[i].tags[0]));
    }
    FilterAll(ts, t => TagMatches(t, ""));
  }

  /** The search ignores case: two queries equal up to case give the same templates. */
  lemma ByTagIgnoresCase(ts: seq<Template>, a: string, b: string)
    requires LowerStr(a) == LowerStr(b)
    ensures ByTag(ts, a) == ByTag(ts, b)
  {
    FilterCongruent(ts, t => TagMatches(t, a), t => TagMatches(t, b));
  }

  lemma ByTagLowered(ts: seq<Template>, tag: string)
    ensures ByTag(ts, LowerStr(tag)) == ByTag(ts, tag)
  {
    LowerStrIdempotent(tag);
    ByTagIgnoresCase(ts, LowerStr(tag), tag);
  }

  // ---------------------------------------------------------------------
  // getTemplatesByCategory and getCategoryCounts

  datatype CategoryFilter = All | Only(category: Category)

  function ByCategory(ts: seq<Template>, f: CategoryFilter): (r: seq<Template>)
    ensures f.All? ==> r == ts
    ensures f.Only? ==> forall t :: t in r <==> t in ts && t.category == f.category
  {
    match f
    case All => ts
    case Only(c) => Filter(ts, OfCategory(c))
  }

  /** The membership test `getTemplatesByCategory` filters with. */
  function OfCategory(c: Category): Template -> bool {
    (t: Template) => t.category == c
  }

  /** Every category is counted once: the four counts add up to the length. */
  lemma {:induction false} TallyPartition(cats: seq<Category>)
    ensures var m := multiset(cats); m[Web] + m[Api] + m[Tool] + m[Other] == |cats|
    decreases |cats|
  {
    if cats != [] {
      var init := cats[..|cats| - 1];
      TallyPartition(init);
      assert cats == init + [cats[|cats| - 1]];
      assert multiset(cats) == multiset(init) + multiset{cats[|cats| - 1]};
      match cats[|cats| - 1]
      case Web =>
      case Api =>
      case Tool =>
      case Other =>
    }
  }

  /** The number of templates in category `c`. */
  function CountIn(ts: seq<Template>, c: Category): nat {
    multiset(Categories(ts))[c]
  }

  /** The count of a category is the length of the category's filter. */
  lemma {:induction false} CountIsFilterLength(ts: seq<Template>, c: Category)
    ensures CountIn(ts, c) == |ByCategory(ts, Only(c))|
    decreases |ts|
  {
    if ts != [] {
      var rest := ts[1..];
      CountIsFilterLength(rest, c);
      assert ts == [ts[0]] + rest;
      FilterCons(ts[0], rest, OfCategory(c));
      CountCons(ts[0], rest, c);
    }
  }

  /** Counting over a template put in front of a list. */
  lemma CountCons(x: Template, rest: seq<Template>, c: Category)
    ensures CountIn([x] + rest, c) == (if x.category == c then 1 else 0) + CountIn(rest, c)
  {
    assert Categories([x] + rest) == [x.category] + Categories(rest);
  }

  /** The counts of the four categories add up to the `all` count. */
  lemma CountsPartition(ts: seq<Template>)
    ensures CountIn(ts, Web) + CountIn(ts, Api) + CountIn(ts, Tool) + CountIn(ts, Other) == |ts|
  {
    TallyPartition(Categories(ts));
  }

  /** The table has seven web, two API, three tool and two other templates. */
  lemma TableCounts()
    ensures |TableCategories| == 14
    ensures var m := multiset(TableCategories); m[Web] == 7 && m[Api] == 2 && m[Tool] == 3 && m[Other] == 2
  {
    TableCountWeb();
    TableCountApi();
    TableCountTool();
    TableCountOther();
  }

  lemma TableCountWeb() ensures multiset(TableCategories)[Web] == 7 {}
  lemma TableCountApi() ensures multiset(TableCategories)[Api] == 2 {}
  lemma TableCountTool() ensures multiset(TableCategories)[Tool] == 3 {}
  lemma TableCountOther() ensures multiset(TableCategories)[Other] == 2 {}

  /** A key of the counts record: `all` or one category. */
  datatype CountKey = AllKey | Of(category: Category)

  /** Starts every category at zero and `all` at the length, then counts each template once. */
  method CategoryCounts(ts: seq<Template>) returns (counts: map<CountKey, int>)
    ensures counts.Keys == {AllKey, Of(Web), Of(Api), Of(Tool), Of(Other)}
    ensures counts[AllKey] == |ts|
    ensures forall c :: Of(c) in counts && counts[Of(c)] == CountIn(ts, c)
  {
    counts := map[AllKey := |ts|, Of(Web) := 0, Of(Api) := 0, Of(Tool) := 0, Of(Other) := 0];
    assert Categories(ts[..0]) == [];
    assert forall c: Category :: Of(c) in counts by {
      forall c: Category ensures Of(c) in counts {
        match c
        case Web =>
        case Api =>
        case Tool =>
        case Other =>
      }
    }
    for i := 0 to |ts|
      invariant counts.Keys == {AllKey, Of(Web), Of(Api), Of(Tool), Of(Other)}
      invariant counts[AllKey] == |ts|
      invariant forall c :: Of(c) in counts && counts[Of(c)] == multiset(Categories(ts[..i]))[c]
    {
      assert Categories(ts[..i + 1]) == Categories(ts[..i]) + [ts[i].category];
      var k := Of(ts[i].category);
      counts := counts[k := counts[k] + 1];
    }
    assert ts[..|ts|] == ts;
  }

  // ---------------------------------------------------------------------
  // templateToProjectConfig

  /** An empty stack: the fallback when a template names none. */
  const EmptyStack := TechStack(Some([]), Some([]), Some([]))

  /**
   * Builds the configuration for a new project from a template: the given
   * description wins unless it is empty, and the metadata records which
   * template was used.
   */
  function ToProjectConfig(t: Template, projectName: string, description: string): (r: ProjectConfig)
    requires t.config.projectType.Some? && t.config.metadata.Some?
    ensures r.name == projectName
    ensures r.description == if description != "" then description else t.description
    ensures r.projectType == t.config.projectType.value
    ensures r.features == t.config.features.GetOr([]) && r.techStack == t.config.techStack.GetOr(EmptyStack)
    ensures r.metadata.templateUsed == Some(t.id)
  {
    var m := t.config.metadata.value;
    ProjectConfig(
      projectName,
      if description != "" then description else t.description,
      t.config.projectType.value,
      t.config.features.GetOr([]),
      t.config.techStack.GetOr(EmptyStack),
      Metadata(m.estimatedComplexity, m.estimatedDuration, m.teamSize, Some(t.id)))
  }

  /**
   * A configuration leads back to its template: looking up the id it
   * records finds the template it was made from, and its metadata is the
   * template's apart from that id.
   */
  lemma ConfigRemembersTemplate(ts: seq<Template>, k: nat, projectName: string, description: string)
    requires Distinct(Ids(ts))
    requires k < |ts|
    requires ts[k].config.projectType.Some? && ts[k].config.metadata.Some?
    ensures var r := ToProjectConfig(ts[k], projectName, description);
      FindById(ts, r.metadata.templateUsed.value) == Some(ts[k]) &&
      r.metadata.(templateUsed := ts[k].config.metadata.value.templateUsed) == ts[k].config.metadata.value
  {
    FindByOwnId(ts, k);
  }

  // ---------------------------------------------------------------------
  // The facts above, for the application's own table

  /** In `Templates` an id names one template, and the default popular list is the three of popularity 5. */
  lemma TemplatesFacts()
    ensures Distinct(Ids(Templates))
    ensures Ids(PopularOf(Templates, DefaultLimit)) == ["saas-starter", "landing-page", "portfolio"]
  {
    TemplatesColumns();
    TableIdsDistinct();
    DefaultPopular(Templates);
  }

  /** `getCategoryCounts` on `Templates`: 7 web, 2 API, 3 tool and 2 other. */
  lemma TemplatesCounts()
    ensures CountIn(Templates, Web) == 7 && CountIn(Templates, Api) == 2
    ensures CountIn(Templates, Tool) == 3 && CountIn(Templates, Other) == 2
  {
    TemplatesColumns();
    TableCounts();
  }
}
