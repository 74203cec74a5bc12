/**
 * The feature catalogue: the definitions every selected feature id is
 * resolved against, the mapping of request items to project features, the
 * dependency check and the per-project-type recommendations.
 */
module FeatureMapping {
  import opened Wrappers
  import opened Seqs
  import opened Types

  /** A catalogue entry; an absent `dependencies` list is the empty list. */
  datatype FeatureDefinition = FeatureDefinition(
    id: string,
    name: string,
    category: string,
    description: string,
    dependencies: seq<string>,
    techRequirements: seq<string>)

  const Auth := FeatureDefinition("auth", "Authentication", "authentication",
    "User authentication and authorization system", [], ["backend"])
  const Database := FeatureDefinition("database", "Database", "database",
    "Database integration and ORM setup", [], ["backend"])
  const Api := FeatureDefinition("api", "API Routes", "database",
    "RESTful API endpoints", ["database"], ["backend"])
  const Upload := FeatureDefinition("upload", "File Upload", "storage",
    "File upload and storage functionality", [], ["backend"])
  const Email := FeatureDefinition("email", "Email Service", "email",
    "Email sending and notification system", [], [])
  const Payment := FeatureDefinition("payment", "Payment Integration", "payments",
    "Payment processing and subscription management", [], ["backend"])
  const Analytics := FeatureDefinition("analytics", "Analytics", "analytics",
    "User analytics and metrics tracking", [], [])
  const Testing := FeatureDefinition("testing", "Testing Setup", "automation",
    "Automated testing framework and CI/CD", [], [])

  /** `FEATURE_DEFINITIONS`, in key order; every entry is stored under its own id. */
  const Definitions: seq<FeatureDefinition> :=
    [Auth, Database, Api, Upload, Email, Payment, Analytics, Testing]

  function DefinitionIds(defs: seq<FeatureDefinition>): (r: seq<string>)
    ensures |r| == |defs|
    ensures forall i :: 0 <= i < |defs| ==> r[i] == defs[i].id
  {
    seq(|defs|, i requires 0 <= i < |defs| => defs[i].id)
  }

  /** `getAllFeatureIds`: the catalogue's keys, in order. */
  function GetAllFeatureIds(): (r: seq<string>)
    ensures r == ["auth", "database", "api", "upload", "email", "payment", "analytics", "testing"]
    ensures Distinct(r)
  {
    DefinitionIds(Definitions)
  }

  /** `getFeatureDefinition` (`FEATURE_DEFINITIONS[id]` over the catalogue's own keys). */
  function GetFeatureDefinition(id: string): (r: Option<FeatureDefinition>)
    ensures r.Some? <==> id in GetAllFeatureIds()
    ensures r.Some? ==> r.value in Definitions && r.value.id == id
  {
    match id
    case "auth" => Some(Auth)
    case "database" => Some(Database)
    case "api" => Some(Api)
    case "upload" => Some(Upload)
    case "email" => Some(Email)
    case "payment" => Some(Payment)
    case "analytics" => Some(Analytics)
    case "testing" => Some(Testing)
    case _ => None
  }

  /** Only API Routes declares a dependency, on Database. */
  lemma OnlyApiHasDependencies(id: string)
    ensures GetFeatureDefinition(id).Some? && GetFeatureDefinition(id).value.dependencies != []
            <==> id == "api"
    ensures id == "api" ==> GetFeatureDefinition(id) == Some(Api)
  {
  }

  /** `getFeaturesByCategory`: the definitions of one category, in catalogue order. */
  function GetFeaturesByCategory(category: string): (r: seq<FeatureDefinition>)
    ensures forall i :: 0 <= i < |r| ==> r[i] in Definitions && r[i].category == category
    ensures forall i :: 0 <= i < |Definitions| && Definitions[i].category == category ==> Definitions[i] in r
  {
    Filter(Definitions, InCategory(category))
  }

  /** The membership test `getFeaturesByCategory` filters with. */
  function InCategory(category: string): FeatureDefinition -> bool {
    (d: FeatureDefinition) => d.category == category
  }

  /** API Routes is catalogued under the database category, after Database itself. */
  lemma DatabaseCategory()
    ensures GetFeaturesByCategory("database") == [Database, Api]
  {
    var p := InCategory("database");
    var tail := [Upload, Email, Payment, Analytics, Testing];
    assert Definitions == [Auth, Database, Api] + tail;
    assert Payment.category[0] == 'p';
    assert forall i :: 0 <= i < |tail| ==> !p(tail[i]);
    FilterNone(tail, p);
    FilterSecondAndThird(Auth, Database, Api, tail, p);
  }

  // ---------------------------------------------------------------------
  // Mapping request items to project features
  // ---------------------------------------------------------------------

  /** An element of the request's `features` array. */
  datatype FeatureInput =
    | StringItem(s: string)
    | ObjectItem(objectId: Option<string>)  // an object; its `id` if that is a string
    | OtherItem                             // null, a number, an object without a usable id

  /** The id an item stands for: a non-empty string, or an object's truthy `id`. */
  function NormalizeId(item: FeatureInput): (r: Option<string>)
    ensures r.Some? ==> r.value != ""
    ensures r.Some? <==> (item.StringItem? && item.s != "") || (item.ObjectItem? && Truthy(item.objectId))
  {
    match item
    case StringItem(s) => if s != "" then Some(s) else None
    case ObjectItem(id) => if Truthy(id) then id else None
    case OtherItem => None
  }

  /** `featureIds.map(normalise).filter(Boolean)`. */
  function NormalizedIds(items: seq<FeatureInput>): (r: seq<string>)
    ensures |r| <= |items|
    ensures forall i :: 0 <= i < |r| ==> r[i] != ""
    decreases |items|
  {
    if items == [] then []
    else
      (match NormalizeId(items[0]) case Some(id) => [id] case None => [])
      + NormalizedIds(items[1..])
  }

  function ToProjectFeature(d: FeatureDefinition): (f: Feature)
    ensures f.id == d.id && f.name == d.name && f.category == d.category
    ensures f.required && f.description == Some(d.description)
  {
    Feature(d.id, d.name, d.category, true, Some(d.description))
  }

  function MapIds(ids: seq<string>): (r: seq<Feature>)
    ensures |r| <= |ids|
    decreases |ids|
  {
    if ids == [] then []
    else
      (match GetFeatureDefinition(ids[0]) case Some(d) => [ToProjectFeature(d)] case None => [])
      + MapIds(ids[1..])
  }

  /** `mapFeaturesToProjectFeatures`. */
  function MapFeaturesToProjectFeatures(items: seq<FeatureInput>): (r: seq<Feature>)
    ensures |r| <= |items|
  {
    MapIds(NormalizedIds(items))
  }

  function FeatureIds(fs: seq<Feature>): (r: seq<string>)
    ensures |r| == |fs|
    ensures forall i :: 0 <= i < |fs| ==> r[i] == fs[i].id
  {
    seq(|fs|, i requires 0 <= i < |fs| => fs[i].id)
  }

  predicate IsCatalogued(id: string) { GetFeatureDefinition(id).Some? }

  /** A feature built from the catalogue entry stored under its id. */
  predicate IsCatalogueFeature(f: Feature) {
    GetFeatureDefinition(f.id).Some? && f == ToProjectFeature(GetFeatureDefinition(f.id).value)
  }

  /**
   * Every mapped feature is a catalogue entry marked required, and the ids
   * that survive are exactly the catalogued ones among the normalised ids,
   * in request order and with repetitions kept.
   */
  lemma {:induction false} MapIdsSpec(ids: seq<string>)
    ensures forall i :: 0 <= i < |MapIds(ids)| ==> IsCatalogueFeature(MapIds(ids)[i])
    ensures FeatureIds(MapIds(ids)) == Filter(ids, IsCatalogued)
    decreases |ids|
  {
    if ids != [] {
      MapIdsSpec(ids[1..]);
      var r := MapIds(ids);
      var rest := MapIds(ids[1..]);
      match GetFeatureDefinition(ids[0])
      case Some(d) =>
        assert r == [ToProjectFeature(d)] + rest;
        assert FeatureIds(r) == [d.id] + FeatureIds(rest);
      case None =>
        assert r == rest;
    }
  }

  lemma MapFeaturesSpec(items: seq<FeatureInput>)
    ensures var r := MapFeaturesToProjectFeatures(items);
      (forall i :: 0 <= i < |r| ==> r[i].required && IsCatalogueFeature(r[i]))
      && FeatureIds(r) == Filter(NormalizedIds(items), IsCatalogued)
  {
    MapIdsSpec(NormalizedIds(items));
  }

  // ---------------------------------------------------------------------
  // Dependency validation
  // ---------------------------------------------------------------------

  datatype DependencyCheck = DependencyCheck(valid: bool, missingDependencies: seq<string>, warnings: seq<string>)

  /** `FEATURE_DEFINITIONS[depId]?.name || depId`. */
  function DependencyName(depId: string): string {
    match GetFeatureDefinition(depId)
    case Some(d) => if d.name != "" then d.name else depId
    case None => depId
  }

  /** The messages for one feature's unmet dependencies, in dependency order. */
  function MissingFor(d: FeatureDefinition, deps: seq<string>, selected: seq<string>): seq<string>
    decreases |deps|
  {
    if deps == [] then []
    else
      MissingFor(d, deps[..|deps| - 1], selected)
      + (if deps[|deps| - 1] in selected then []
         else [d.name + " requires " + DependencyName(deps[|deps| - 1])])
  }

  /** The messages for the features named in `ids`, each checked against all of `selected`. */
  function Missing(ids: seq<string>, selected: seq<string>): seq<string>
    decreases |ids|
  {
    if ids == [] then []
    else
      Missing(ids[..|ids| - 1], selected) + MissingForId(ids[|ids| - 1], selected)
  }

  /** The messages for the feature stored under `id`, if any. */
  function MissingForId(id: string, selected: seq<string>): seq<string> {
    match GetFeatureDefinition(id)
    case Some(d) => MissingFor(d, d.dependencies, selected)
    case None => []
  }

  /** "API Routes requires Database". */
  const ApiRequiresDatabase := Api.name + " requires " + Database.name

  function Repeat(msg: string, n: nat): (r: seq<string>)
    ensures |r| == n
    ensures forall i :: 0 <= i < n ==> r[i] == msg
  {
    seq(n, _ => msg)
  }

  lemma RepeatSnoc(msg: string, n: nat)
    ensures Repeat(msg, n) + [msg] == Repeat(msg, n + 1)
    ensures Repeat(msg, n) + [] == Repeat(msg, n)
  {
    assert Repeat(msg, n) + [msg] == Repeat(msg, n + 1);
  }

  /** What one selected id contributes: a message only for API Routes without Database. */
  lemma MissingStep(id: string, selected: seq<string>)
    ensures MissingForId(id, selected) == if id == "api" && "database" !in selected then [ApiRequiresDatabase] else []
  {
    OnlyApiHasDependencies(id);
    if id == "api" {
      assert Api.dependencies[..0] == [];
      assert DependencyName("database") == Database.name;
    } else {
      match GetFeatureDefinition(id)
      case None =>
      case Some(d) => assert d.dependencies == [];
    }
  }

  /** One message per selected API Routes, unless Database is selected too. */
  lemma {:induction false} MissingCharacterised(ids: seq<string>, selected: seq<string>)
    ensures Missing(ids, selected)
         == if "database" in selected then [] else Repeat(ApiRequiresDatabase, Count(ids, "api"))
    decreases |ids|
  {
    if ids != [] {
      var prefix := ids[..|ids| - 1];
      var id := ids[|ids| - 1];
      MissingCharacterised(prefix, selected);
      MissingStep(id, selected);
      assert Missing(ids, selected) == Missing(prefix, selected) + MissingForId(id, selected);
      assert Count(ids, "api") == Count(prefix, "api") + (if id == "api" then 1 else 0);
      RepeatSnoc(ApiRequiresDatabase, Count(prefix, "api"));
    }
  }

  /** The messages for one feature's unmet dependencies. */
  method CollectMissing(feature: FeatureDefinition, selected: seq<string>) returns (msgs: seq<string>)
    ensures msgs == MissingFor(feature, feature.dependencies, selected)
  {
    var deps := feature.dependencies;
    msgs := [];
    for j := 0 to |deps|
      invariant msgs == MissingFor(feature, deps[..j], selected)
    {
      assert deps[..j + 1][..j] == deps[..j];
      if deps[j] !in selected {
        msgs := msgs + [feature.name + " requires " + DependencyName(deps[j])];
      }
    }
    assert deps[..|deps|] == deps;
  }

  /** `validateFeatureDependencies`. */
  method ValidateFeatureDependencies(selected: seq<string>) returns (res: DependencyCheck)
    ensures res.missingDependencies == Missing(selected, selected)
    ensures res.valid <==> res.missingDependencies == []
    ensures res.warnings == []
  {
    var missing: seq<string> := [];
    for i := 0 to |selected|
      invariant missing == Missing(selected[..i], selected)
    {
      assert selected[..i + 1][..i] == selected[..i];
      var feature := GetFeatureDefinition(selected[i]);
      if feature.Some? {
        var msgs := CollectMissing(feature.value, selected);
        missing := missing + msgs;
      }
    }
    assert selected[..|selected|] == selected;
    res := DependencyCheck(|missing| == 0, missing, []);
  }

  /** The selection is valid exactly when API Routes is not chosen without Database. */
  lemma ValidIffApiHasDatabase(selected: seq<string>)
    ensures Missing(selected, selected) == [] <==> ("api" in selected ==> "database" in selected)
  {
    MissingCharacterised(selected, selected);
  }

  // ---------------------------------------------------------------------
  // Recommendations
  // ---------------------------------------------------------------------

  /** `getRecommendedFeatures`: the feature ids suggested for a project type, none for other types. */
  function GetRecommendedFeatures(projectType: string): (r: seq<string>)
    ensures forall i :: 0 <= i < |r| ==> IsCatalogued(r[i])
    ensures projectType !in {"saas", "api", "website", "webapp", "mobile", "desktop", "cli", "library", "microservice"}
            ==> r == []
  {
    match projectType
    case "saas" => ["auth", "database", "api", "payment", "email", "analytics"]
    case "api" => ["auth", "database", "api", "testing"]
    case "website" => ["analytics"]
    case "webapp" => ["auth", "database", "api", "upload"]
    case "mobile" => ["auth", "api", "analytics"]
    case "desktop" => ["database", "upload"]
    case "cli" => ["testing"]
    case "library" => ["testing"]
    case "microservice" => ["api", "database", "testing"]
    case _ => []
  }

  /**
   * Every recommended set passes the dependency check except the one for
   * `mobile`, which suggests API Routes without Database.
   */
  lemma RecommendationsValidation(projectType: string)
    ensures var r := GetRecommendedFeatures(projectType);
      Missing(r, r) == [] <==> projectType != "mobile"
  {
    var r := GetRecommendedFeatures(projectType);
    ValidIffApiHasDatabase(r);
    RecommendedApiComesWithDatabase(projectType);
  }

  lemma RecommendedApiComesWithDatabase(projectType: string)
    ensures var r := GetRecommendedFeatures(projectType);
      ("api" in r ==> "database" in r) <==> projectType != "mobile"
  {
    var r := GetRecommendedFeatures(projectType);
    if projectType == "mobile" {
      assert r[1] == "api";
    }
  }
}
