/**
  Data model of the plan-corpus linker (src/core/plan_corpus_linker.py):
  corpus documents and chunks as the store hands them over, the corpus
  summary, the sampling of leading chunks and `PlanContext` with `to_dict`.
 */
module PlanContexts {
  import opened Wrappers
  import opened Sequences

  /** The fields of a stored document that the linker reads; "" stands for an empty or missing value. */
  datatype Document = Document(
    docId: string,
    filename: string,
    title: string,
    language: string,
    docType: string,
    pageCount: int,
    tokenCount: int)

  /**
    A chunk as returned by the store: normally a dictionary (a missing
    `section_title` or `text` key reads as ""), but the linker also accepts
    items of any other kind.
   */
  datatype Chunk = DictChunk(sectionTitle: string, text: string) | OtherChunk

  /** One entry of `corpus_summary["documents"]`. */
  datatype DocDigest = DocDigest(title: string, pages: int, tokens: int, docType: string)

  /**
    `corpus_summary`. The source builds `languages` and `types` with
    `list(set(...))`, whose order Python leaves unspecified, so they are sets here.
   */
  datatype CorpusSummary = CorpusSummary(
    totalDocuments: nat,
    totalTokens: int,
    languages: set<string>,
    types: set<string>,
    documents: seq<DocDigest>)

  /** One value of the `coverage` dictionary: `{"avg_score", "nb_chunks"}`. */
  datatype Coverage = Coverage(avgScore: real, nbChunks: nat)

  /** A value stored under one of the three keys of `PlanContext.to_dict()`. */
  datatype PlanValue =
    | SummaryValue(summary: CorpusSummary)
    | ThemesValue(themes: seq<string>)
    | CoverageValue(coverage: map<string, Coverage>)

  datatype PlanContext = PlanContext(
    corpusSummary: CorpusSummary,
    themes: seq<string>,
    coverage: map<string, Coverage>)
  {
    /** `to_dict`: the three fields under their own names; `FromDict` reads them back. */
    function ToDict(): (d: map<string, PlanValue>)
      ensures d.Keys == {"corpus_summary", "themes", "coverage"}
      ensures FromDict(d) == Some(this)
    {
      map["corpus_summary" := SummaryValue(corpusSummary),
          "themes" := ThemesValue(themes),
          "coverage" := CoverageValue(coverage)]
    }
  }

  /** Reads a dictionary of the `to_dict` shape back into a `PlanContext`. */
  function FromDict(d: map<string, PlanValue>): Option<PlanContext> {
    if && "corpus_summary" in d && d["corpus_summary"].SummaryValue?
       && "themes" in d && d["themes"].ThemesValue?
       && "coverage" in d && d["coverage"].CoverageValue?
    then Some(PlanContext(d["corpus_summary"].summary, d["themes"].themes, d["coverage"].coverage))
    else None
  }

  /** `sum(d.token_count for d in docs)`. */
  function SumTokens(docs: seq<Document>): int {
    if docs == [] then 0 else docs[0].tokenCount + SumTokens(docs[1..])
  }

  /** The token total of two runs of documents is the sum of their totals. */
  lemma {:induction false} SumTokensAppend(a: seq<Document>, b: seq<Document>)
    ensures SumTokens(a + b) == SumTokens(a) + SumTokens(b)
  {
    if a == [] {
      assert a + b == b;
    } else {
      assert (a + b)[1..] == a[1..] + b;
      SumTokensAppend(a[1..], b);
    }
  }

  /** With non-negative counts the total bounds every single document's count. */
  lemma {:induction false} SumTokensBoundsEach(docs: seq<Document>, i: nat)
    requires forall k :: 0 <= k < |docs| ==> docs[k].tokenCount >= 0
    requires i < |docs|
    ensures 0 <= docs[i].tokenCount <= SumTokens(docs)
  {
    if i > 0 {
      SumTokensBoundsEach(docs[1..], i - 1);
    } else {
      SumTokensNonNegative(docs[1..]);
    }
  }

  lemma {:induction false} SumTokensNonNegative(docs: seq<Document>)
    requires forall k :: 0 <= k < |docs| ==> docs[k].tokenCount >= 0
    ensures SumTokens(docs) >= 0
  {
    if docs != [] {
      SumTokensNonNegative(docs[1..]);
    }
  }

  /** `set(v for v in values if v)`: the distinct non-empty values. */
  function DistinctNonEmpty(values: seq<string>): (r: set<string>)
    ensures forall v :: v in r <==> v != "" && v in values
  {
    if values == [] then {}
    else (if values[0] != "" then {values[0]} else {}) + DistinctNonEmpty(values[1..])
  }

  /** `d.title or d.filename`, with the page and token counts and the type. */
  function Digest(d: Document): DocDigest {
    DocDigest(if d.title != "" then d.title else d.filename, d.pageCount, d.tokenCount, d.docType)
  }

  /** Step 1 of `link_plan_to_corpus`: the corpus inventory. */
  function SummarizeCorpus(docs: seq<Document>): (s: CorpusSummary)
    ensures s.totalDocuments == |docs|
    ensures s.totalTokens == SumTokens(docs)
    ensures forall l :: l in s.languages <==> l != "" && exists k :: 0 <= k < |docs| && docs[k].language == l
    ensures forall t :: t in s.types <==> t != "" && exists k :: 0 <= k < |docs| && docs[k].docType == t
    ensures |s.documents| == |docs|
    ensures forall k :: 0 <= k < |docs| ==>
      && s.documents[k].title == (if docs[k].title != "" then docs[k].title else docs[k].filename)
      && s.documents[k].pages == docs[k].pageCount
      && s.documents[k].tokens == docs[k].tokenCount
      && s.documents[k].docType == docs[k].docType
  {
    var languages := seq(|docs|, k requires 0 <= k < |docs| => docs[k].language);
    var types := seq(|docs|, k requires 0 <= k < |docs| => docs[k].docType);
    assert forall l :: l in languages <==> exists k :: 0 <= k < |docs| && docs[k].language == l by {
      forall l | l in languages ensures exists k :: 0 <= k < |docs| && docs[k].language == l {
        var k :| 0 <= k < |languages| && languages[k] == l;
      }
      forall k | 0 <= k < |docs| ensures docs[k].language in languages {
        assert languages[k] == docs[k].language;
      }
    }
    assert forall t :: t in types <==> exists k :: 0 <= k < |docs| && docs[k].docType == t by {
      forall t | t in types ensures exists k :: 0 <= k < |docs| && docs[k].docType == t {
        var k :| 0 <= k < |types| && types[k] == t;
      }
      forall k | 0 <= k < |docs| ensures docs[k].docType in types {
        assert types[k] == docs[k].docType;
      }
    }
    CorpusSummary(
      |docs|,
      SumTokens(docs),
      DistinctNonEmpty(languages),
      DistinctNonEmpty(types),
      seq(|docs|, k requires 0 <= k < |docs| => Digest(docs[k])))
  }

  const DefaultMaxIntroChunksPerDoc: int := 3
  const DefaultMaxDocumentsForTheme: int := 30

  /** The `plan_corpus_linking` part of the project configuration; `None` is an absent key. */
  datatype LinkingConfig = LinkingConfig(
    maxIntroChunksPerDoc: Option<int>,
    maxDocumentsForTheme: Option<int>)

  /**
    The chunks taken from each of `docs` in turn: the first `maxIntro` of the
    document's chunks (`chunks[:max_intro_chunks]`). `chunksOf` stands for the
    store's `get_chunks_by_doc`.
   */
  function IntroChunks(docs: seq<Document>, chunksOf: string -> seq<Chunk>, maxIntro: int): seq<Chunk> {
    if docs == [] then []
    else IntroChunks(docs[..|docs| - 1], chunksOf, maxIntro) + Prefix(chunksOf(docs[|docs| - 1].docId), maxIntro)
  }

  /** Step 2 of `link_plan_to_corpus`: the sample of leading chunks of the first `maxDocs` documents. */
  function LeadingChunks(docs: seq<Document>, chunksOf: string -> seq<Chunk>, maxDocs: int, maxIntro: int): seq<Chunk> {
    IntroChunks(Prefix(docs, maxDocs), chunksOf, maxIntro)
  }

  /** The sampling loop, which extends `theme_chunks` document by document. */
  method SampleLeadingChunks(docs: seq<Document>, chunksOf: string -> seq<Chunk>, maxDocs: int, maxIntro: int)
    returns (sample: seq<Chunk>)
    ensures sample == LeadingChunks(docs, chunksOf, maxDocs, maxIntro)
  {
    var selected := Prefix(docs, maxDocs);
    sample := [];
    for i := 0 to |selected|
      invariant sample == IntroChunks(selected[..i], chunksOf, maxIntro)
    {
      assert selected[..i + 1][..i] == selected[..i];
      var chunks := chunksOf(selected[i].docId);
      sample := sample + Prefix(chunks, maxIntro);
    }
    assert selected[..|selected|] == selected;
  }

  lemma {:induction false} IntroChunksSize(docs: seq<Document>, chunksOf: string -> seq<Chunk>, maxIntro: int)
    requires 0 <= maxIntro
    ensures |IntroChunks(docs, chunksOf, maxIntro)| <= |docs| * maxIntro
  {
    if docs != [] {
      IntroChunksSize(docs[..|docs| - 1], chunksOf, maxIntro);
      assert (|docs| - 1) * maxIntro + maxIntro == |docs| * maxIntro;
    }
  }

  lemma MultiplyMonotone(a: int, b: int, c: int)
    requires a <= b && 0 <= c
    ensures a * c <= b * c
  {
    assert b * c - a * c == (b - a) * c;
  }

  /** The sample holds at most `maxDocs * maxIntro` chunks. */
  lemma SampleSize(docs: seq<Document>, chunksOf: string -> seq<Chunk>, maxDocs: int, maxIntro: int)
    requires 0 <= maxDocs && 0 <= maxIntro
    ensures |LeadingChunks(docs, chunksOf, maxDocs, maxIntro)| <= maxDocs * maxIntro
  {
    var selected := Prefix(docs, maxDocs);
    IntroChunksSize(selected, chunksOf, maxIntro);
    assert |selected| * maxIntro <= maxDocs * maxIntro by {
      assert |selected| <= maxDocs;
      MultiplyMonotone(|selected|, maxDocs, maxIntro);
    }
  }

  lemma {:induction false} IntroChunksOrigin(docs: seq<Document>, chunksOf: string -> seq<Chunk>, maxIntro: int)
    ensures forall c :: c in IntroChunks(docs, chunksOf, maxIntro) ==>
      exists i :: 0 <= i < |docs| && c in Prefix(chunksOf(docs[i].docId), maxIntro)
  {
    if docs != [] {
      var front := docs[..|docs| - 1];
      IntroChunksOrigin(front, chunksOf, maxIntro);
      forall c | c in IntroChunks(docs, chunksOf, maxIntro)
        ensures exists i :: 0 <= i < |docs| && c in Prefix(chunksOf(docs[i].docId), maxIntro)
      {
        if c in IntroChunks(front, chunksOf, maxIntro) {
          var i :| 0 <= i < |front| && c in Prefix(chunksOf(front[i].docId), maxIntro);
          assert front[i] == docs[i];
        } else {
          assert c in Prefix(chunksOf(docs[|docs| - 1].docId), maxIntro);
        }
      }
    }
  }

  /** Every sampled chunk is among the first `maxIntro` chunks of one of the first `maxDocs` documents. */
  lemma SampleOrigin(docs: seq<Document>, chunksOf: string -> seq<Chunk>, maxDocs: int, maxIntro: int)
    ensures forall c :: c in LeadingChunks(docs, chunksOf, maxDocs, maxIntro) ==>
      exists i :: 0 <= i < |Prefix(docs, maxDocs)| && c in Prefix(chunksOf(docs[i].docId), maxIntro)
  {
    var selected := Prefix(docs, maxDocs);
    IntroChunksOrigin(selected, chunksOf, maxIntro);
    forall c | c in LeadingChunks(docs, chunksOf, maxDocs, maxIntro)
      ensures exists i :: 0 <= i < |selected| && c in Prefix(chunksOf(docs[i].docId), maxIntro)
    {
      var i :| 0 <= i < |selected| && c in Prefix(chunksOf(selected[i].docId), maxIntro);
      assert selected[i] == docs[i];
    }
  }
}
