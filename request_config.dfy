/**
 * How the `generate` and `analyze` routes turn a request body into a
 * `ProjectConfig`: either spelling of the name and the type, a one-element
 * list per tech stack layer, catalogue features, and default metadata.
 * An absent string is written as the empty string: both are falsy and
 * equal no literal the routes compare with.
 */
module RequestConfig {
  import opened Wrappers
  import opened Seqs
  import opened Types
  import opened FeatureMapping

  /** The `techStack` object of a request: at most one choice per layer. */
  datatype RawStack = RawStack(frontend: Option<string>, backend: Option<string>, database: Option<string>)

  /** The configuration fields a request may carry; `kind` is the field named `type`. */
  datatype RawConfig = RawConfig(
    projectName: Option<string>,
    name: Option<string>,
    description: Option<string>,
    projectType: Option<string>,
    kind: Option<string>,
    features: Option<seq<FeatureInput>>,
    techStack: Option<RawStack>,
    metadata: Option<Metadata>,
    estimatedComplexity: Option<string>)

  const DefaultComplexity := "moderate"
  const DefaultDuration := "2-4 weeks"
  const DefaultTeamSize := 3

  /** `choice ? [choice] : []`. */
  function Layer(choice: Option<string>): seq<string> {
    if Truthy(choice) then [choice.value] else []
  }

  /** The tech stack: every layer present, holding the request's choice if it made one. */
  function StackOf(raw: Option<RawStack>): TechStack {
    match raw
    case None => TechStack(Some([]), Some([]), Some([]))
    case Some(st) => TechStack(Some(Layer(st.frontend)), Some(Layer(st.backend)), Some(Layer(st.database)))
  }

  /** `metadata || { estimatedComplexity: complexity, estimatedDuration: '2-4 weeks', teamSize: 3 }`. */
  function MetadataOf(given: Option<Metadata>, complexity: string): Metadata {
    given.GetOr(Metadata(complexity, DefaultDuration, DefaultTeamSize, None))
  }

  function Text(o: Option<string>): string { o.GetOr("") }

  /** `projectName || name`. */
  function NameOf(raw: RawConfig): Option<string> { OrElse(raw.projectName, raw.name) }

  /** `projectType || type`. */
  function TypeOf(raw: RawConfig): Option<string> { OrElse(raw.projectType, raw.kind) }

  /** The configuration built from a request, with `complexity` as the default metadata's complexity. */
  function ConfigOf(raw: RawConfig, complexity: string): ProjectConfig {
    ProjectConfig(
      Text(NameOf(raw)),
      Text(raw.description),
      Text(TypeOf(raw)),
      MapFeaturesToProjectFeatures(raw.features.GetOr([])),
      StackOf(raw.techStack),
      MetadataOf(raw.metadata, complexity))
  }

  /** The request's choice for one layer, if it made a non-empty one. */
  function Choice(raw: Option<RawStack>, layer: RawStack -> Option<string>): Option<string> {
    if raw.Some? && Truthy(layer(raw.value)) then layer(raw.value) else None
  }

  /**
   * The name is `projectName` when that is non-empty, else `name`; it is
   * empty only when neither is given. The same holds of the type.
   */
  lemma NameAndType(raw: RawConfig, complexity: string)
    ensures var c := ConfigOf(raw, complexity);
      && (c.name != "" <==> Truthy(raw.projectName) || Truthy(raw.name))
      && (Truthy(raw.projectName) ==> c.name == raw.projectName.value)
      && (!Truthy(raw.projectName) && Truthy(raw.name) ==> c.name == raw.name.value)
      && (c.projectType != "" <==> Truthy(raw.projectType) || Truthy(raw.kind))
      && (Truthy(raw.projectType) ==> c.projectType == raw.projectType.value)
      && (!Truthy(raw.projectType) && Truthy(raw.kind) ==> c.projectType == raw.kind.value)
  {
  }

  /**
   * Each layer of the stack is a present list of at most one entry, and it
   * includes a technology exactly when the request chose that technology.
   */
  lemma StackLayers(raw: Option<RawStack>, tech: string)
    ensures var ts := StackOf(raw);
      && ts.frontend.Some? && ts.backend.Some? && ts.database.Some?
      && |ts.frontend.value| <= 1 && |ts.backend.value| <= 1 && |ts.database.value| <= 1
      && (Includes(ts.frontend, tech) <==> Choice(raw, (st: RawStack) => st.frontend) == Some(tech))
      && (Includes(ts.backend, tech) <==> Choice(raw, (st: RawStack) => st.backend) == Some(tech))
      && (Includes(ts.database, tech) <==> Choice(raw, (st: RawStack) => st.database) == Some(tech))
  {
  }

  /**
   * Every feature is the catalogue entry for its id, marked required; the
   * ids kept are the catalogued ones among the request's, in request order.
   * Metadata that is not sent gets the defaults.
   */
  lemma FeaturesAndMetadata(raw: RawConfig, complexity: string)
    ensures var c := ConfigOf(raw, complexity);
      && (forall i :: 0 <= i < |c.features| ==> c.features[i].required && IsCatalogueFeature(c.features[i]))
      && FeatureIds(c.features) == Filter(NormalizedIds(raw.features.GetOr([])), IsCatalogued)
      && (raw.metadata.Some? ==> c.metadata == raw.metadata.value)
      && (raw.metadata.None? ==> c.metadata == Metadata(complexity, "2-4 weeks", 3, None))
  {
    MapFeaturesSpec(raw.features.GetOr([]));
  }
}
