/**
  `link_plan_to_corpus`: inventory of the corpus, theme extraction from a
  sample of leading chunks (with the AI provider when there is one, the
  heuristic otherwise or when the provider fails), and forecast coverage.
 */
module PlanCorpusLinker {
  import opened Wrappers
  import opened Sequences
  import opened PlanContexts
  import opened ThemeExtraction
  import opened CoverageForecast

  /** The metadata store as the linker sees it: all documents, and the chunks of a document id. */
  datatype MetadataStore = MetadataStore(documents: seq<Document>, chunksOf: string -> seq<Chunk>)

  /** The parts of the project configuration the linker reads; `None` is an absent key. */
  datatype ProjectConfig = ProjectConfig(linking: LinkingConfig, model: Option<string>)

  function MaxIntro(config: ProjectConfig): int {
    config.linking.maxIntroChunksPerDoc.GetOr(DefaultMaxIntroChunksPerDoc)
  }

  function MaxDocs(config: ProjectConfig): int {
    config.linking.maxDocumentsForTheme.GetOr(DefaultMaxDocumentsForTheme)
  }

  /** Step 2: the chunks the themes are drawn from. */
  function ThemeSample(store: MetadataStore, config: ProjectConfig): seq<Chunk> {
    LeadingChunks(store.documents, store.chunksOf, MaxDocs(config), MaxIntro(config))
  }

  /**
    The heuristic's themes, replaced by the provider's when there is a
    provider, the sample is not empty and generation does not raise.
   */
  function SelectThemes(sample: seq<Chunk>, objective: string, provider: Option<Provider>,
                        configured: Option<string>, ops: TextOps): (themes: seq<string>)
    ensures |themes| <= MaxThemes
  {
    var simple := ThemesSimple(sample, ops);
    if provider.Some? && sample != [] then
      LlmOutcomeShape(sample, objective, provider.value, configured, ops);
      LlmOutcome(sample, objective, provider.value, configured, ops).GetOr(simple)
    else simple
  }

  /** The context `link_plan_to_corpus` returns. */
  function LinkedContext(objective: string, store: MetadataStore, lookup: string -> Lookup,
                         config: ProjectConfig, provider: Option<Provider>, ops: TextOps): PlanContext
  {
    var themes := SelectThemes(ThemeSample(store, config), objective, provider, config.model, ops);
    PlanContext(SummarizeCorpus(store.documents), themes, CoverageMap(themes, lookup))
  }

  /**
    `link_plan_to_corpus`. `lookup` gives the vector-store answer for a
    theme, whichever embedding path produced it.
   */
  method LinkPlanToCorpus(objective: string, store: MetadataStore, lookup: string -> Lookup,
                          config: ProjectConfig, provider: Option<Provider>, ops: TextOps)
    returns (context: PlanContext)
    ensures context == LinkedContext(objective, store, lookup, config, provider, ops)
  {
    var docs := store.documents;
    var corpusSummary := SummarizeCorpus(docs);
    var maxIntroChunks := MaxIntro(config);
    var maxDocs := MaxDocs(config);
    var themeChunks := SampleLeadingChunks(docs, store.chunksOf, maxDocs, maxIntroChunks);
    var themes := ExtractThemesSimple(themeChunks, ops);
    if provider.Some? && themeChunks != [] {
      var outcome := LlmOutcome(themeChunks, objective, provider.value, config.model, ops);
      if outcome.Some? {
        themes := outcome.value;
      }
    }
    var coverage := ForecastCoverage(themes, lookup);
    context := PlanContext(corpusSummary, themes, coverage);
  }

  /** Without a provider, or with nothing sampled, the themes are the heuristic's. */
  lemma HeuristicWithoutProvider(sample: seq<Chunk>, objective: string, provider: Option<Provider>,
                                 configured: Option<string>, ops: TextOps)
    requires provider.None? || sample == []
    ensures SelectThemes(sample, objective, provider, configured, ops) == ThemesSimple(sample, ops)
  {
  }

  /** A provider whose generation raises leaves the heuristic's themes in place. */
  lemma HeuristicWhenGenerationFails(sample: seq<Chunk>, objective: string, p: Provider,
                                     configured: Option<string>, ops: TextOps)
    requires p.generate(objective, PromptExcerpt(sample), ModelFor(configured, p)).GenerationFailed?
    ensures SelectThemes(sample, objective, Some(p), configured, ops) == ThemesSimple(sample, ops)
  {
  }

  /**
    A provider's reply with at least one usable line decides the themes: the
    first fifteen lines it yields, in order.
   */
  lemma ProviderThemesWhenReplyIsUsable(sample: seq<Chunk>, objective: string, p: Provider,
                                        configured: Option<string>, ops: TextOps)
    requires sample != []
    requires var reply := p.generate(objective, PromptExcerpt(sample), ModelFor(configured, p));
      reply.Generated? && ParsedThemes(reply.content) != []
    ensures var reply := p.generate(objective, PromptExcerpt(sample), ModelFor(configured, p));
      SelectThemes(sample, objective, Some(p), configured, ops) == Prefix(ParsedThemes(reply.content), MaxThemes)
  {
    var reply := p.generate(objective, PromptExcerpt(sample), ModelFor(configured, p));
    assert LlmOutcome(sample, objective, p, configured, ops) == Some(LlmThemes(sample, reply.content, ops));
  }

  /** A reply from which no line survives the cleaning also leaves the heuristic's themes. */
  lemma HeuristicWhenNoLineSurvives(sample: seq<Chunk>, objective: string, p: Provider,
                                    configured: Option<string>, ops: TextOps)
    requires sample != []
    requires var reply := p.generate(objective, PromptExcerpt(sample), ModelFor(configured, p));
      reply.Generated? && ParsedThemes(reply.content) == []
    ensures SelectThemes(sample, objective, Some(p), configured, ops) == ThemesSimple(sample, ops)
  {
    var reply := p.generate(objective, PromptExcerpt(sample), ModelFor(configured, p));
    assert LlmOutcome(sample, objective, p, configured, ops) == Some(LlmThemes(sample, reply.content, ops));
  }

  /**
    The context holds the corpus summary, at most fifteen themes, and exactly
    one coverage entry per theme, each computed from that theme's lookup.
   */
  lemma LinkedContextShape(objective: string, store: MetadataStore, lookup: string -> Lookup,
                           config: ProjectConfig, provider: Option<Provider>, ops: TextOps)
    ensures var ctx := LinkedContext(objective, store, lookup, config, provider, ops);
      && ctx.corpusSummary == SummarizeCorpus(store.documents)
      && ctx.corpusSummary.totalDocuments == |store.documents|
      && |ctx.themes| <= MaxThemes
      && ctx.coverage.Keys == set t | t in ctx.themes
      && forall t :: t in ctx.coverage ==> ctx.coverage[t] == CoverageOf(lookup(t))
  {
  }

  /** With no `plan_corpus_linking` settings, at most 30 documents of 3 chunks each are sampled. */
  lemma DefaultSampleSize(store: MetadataStore, model: Option<string>)
    ensures var config := ProjectConfig(LinkingConfig(None, None), model);
      |ThemeSample(store, config)| <= DefaultMaxDocumentsForTheme * DefaultMaxIntroChunksPerDoc
  {
    SampleSize(store.documents, store.chunksOf, DefaultMaxDocumentsForTheme, DefaultMaxIntroChunksPerDoc);
  }
}
