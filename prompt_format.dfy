/**
  `format_plan_context_for_prompt` of the plan-corpus linker: the lines of
  the planning prompt's corpus section, one abstract line per `lines.append`,
  with the coverage level each theme is shown with.
 */
module PlanPrompt {
  import opened PlanContexts

  /** An average score from this value up is strong coverage. */
  const StrongScore: real := 0.5
  /** An average score from this value up, below `StrongScore`, is partial coverage. */
  const PartialScore: real := 0.3

  /** The icons `FORT`, `PARTIEL` and `FAIBLE`. */
  datatype CoverageLevel = Strong | Partial | Weak

  function Classify(avgScore: real): (level: CoverageLevel)
    ensures level == Strong <==> avgScore >= StrongScore
    ensures level == Partial <==> PartialScore <= avgScore < StrongScore
    ensures level == Weak <==> avgScore < PartialScore
  {
    if avgScore >= StrongScore then Strong
    else if avgScore >= PartialScore then Partial
    else Weak
  }

  function Rank(level: CoverageLevel): nat {
    match level
    case Weak => 0
    case Partial => 1
    case Strong => 2
  }

  /** A higher average score never gets a lower level. */
  lemma ClassifyMonotone(a: real, b: real)
    requires a <= b
    ensures Rank(Classify(a)) <= Rank(Classify(b))
  {
  }

  /** `context.coverage.get(theme, {})`, whose missing fields read as 0. */
  function CoverageFor(coverage: map<string, Coverage>, theme: string): Coverage {
    if theme in coverage then coverage[theme] else Coverage(0.0, 0)
  }

  /** One line of the prompt section; the text each one renders to is not modelled. */
  datatype PromptLine =
    | DocumentCountLine(count: nat)
    | TokenTotalLine(tokens: int)
    | LanguagesLine(languages: set<string>)
    | TypesLine(types: set<string>)
    | BlankLine
    | DocumentsHeading
    | DocumentLine(title: string, pages: int, tokens: int)
    | ThemesHeading
    | ThemeLine(level: CoverageLevel, theme: string, avgScore: real, nbChunks: nat)

  function DocumentEntry(d: DocDigest): PromptLine {
    DocumentLine(d.title, d.pages, d.tokens)
  }

  function ThemeEntry(coverage: map<string, Coverage>, theme: string): PromptLine {
    var c := CoverageFor(coverage, theme);
    ThemeLine(Classify(c.avgScore), theme, c.avgScore, c.nbChunks)
  }

  function DocumentLines(docs: seq<DocDigest>): seq<PromptLine> {
    seq(|docs|, k requires 0 <= k < |docs| => DocumentEntry(docs[k]))
  }

  function ThemeLines(themes: seq<string>, coverage: map<string, Coverage>): seq<PromptLine> {
    seq(|themes|, k requires 0 <= k < |themes| => ThemeEntry(coverage, themes[k]))
  }

  /** Counts, languages and types when there are any, then the documents heading. */
  function SummaryHead(s: CorpusSummary): seq<PromptLine> {
    [DocumentCountLine(s.totalDocuments), TokenTotalLine(s.totalTokens)]
    + (if s.languages != {} then [LanguagesLine(s.languages)] else [])
    + (if s.types != {} then [TypesLine(s.types)] else [])
    + [BlankLine, DocumentsHeading]
  }

  /** The summary part of the section, ending with the document list. */
  function SummaryLines(s: CorpusSummary): seq<PromptLine> {
    SummaryHead(s) + DocumentLines(s.documents)
  }

  /** The theme section, present only when there are themes. */
  function ThemeSection(ctx: PlanContext): seq<PromptLine> {
    if ctx.themes != [] then [BlankLine, ThemesHeading] + ThemeLines(ctx.themes, ctx.coverage) else []
  }

  function PromptLines(ctx: PlanContext): seq<PromptLine> {
    SummaryLines(ctx.corpusSummary) + ThemeSection(ctx)
  }

  /** The document loop: one line per document, in order. */
  method AppendDocumentLines(lines: seq<PromptLine>, docs: seq<DocDigest>) returns (r: seq<PromptLine>)
    ensures r == lines + DocumentLines(docs)
  {
    r := lines;
    for i := 0 to |docs|
      invariant r == lines + DocumentLines(docs[..i])
    {
      var doc := docs[i];
      assert DocumentLines(docs[..i + 1]) == DocumentLines(docs[..i]) + [DocumentEntry(doc)];
      r := r + [DocumentLine(doc.title, doc.pages, doc.tokens)];
    }
    assert docs[..|docs|] == docs;
  }

  /** The theme loop: one line per theme, with its icon, score and chunk count. */
  method AppendThemeLines(lines: seq<PromptLine>, themes: seq<string>, coverage: map<string, Coverage>)
    returns (r: seq<PromptLine>)
    ensures r == lines + ThemeLines(themes, coverage)
  {
    r := lines;
    for i := 0 to |themes|
      invariant r == lines + ThemeLines(themes[..i], coverage)
    {
      var theme := themes[i];
      assert ThemeLines(themes[..i + 1], coverage) == ThemeLines(themes[..i], coverage) + [ThemeEntry(coverage, theme)];
      var cov := CoverageFor(coverage, theme);
      r := r + [ThemeLine(Classify(cov.avgScore), theme, cov.avgScore, cov.nbChunks)];
    }
    assert themes[..|themes|] == themes;
  }

  /** `format_plan_context_for_prompt` up to joining the rendered lines with "\n". */
  method FormatPlanContext(ctx: PlanContext) returns (lines: seq<PromptLine>)
    ensures lines == PromptLines(ctx)
  {
    var summary := ctx.corpusSummary;
    lines := [DocumentCountLine(summary.totalDocuments), TokenTotalLine(summary.totalTokens)];
    if summary.languages != {} {
      lines := lines + [LanguagesLine(summary.languages)];
    }
    if summary.types != {} {
      lines := lines + [TypesLine(summary.types)];
    }
    lines := lines + [BlankLine, DocumentsHeading];
    assert lines == SummaryHead(summary);
    lines := AppendDocumentLines(lines, summary.documents);
    if ctx.themes != [] {
      ghost var summaryLines := lines;
      lines := lines + [BlankLine, ThemesHeading];
      lines := AppendThemeLines(lines, ctx.themes, ctx.coverage);
      assert lines == summaryLines + ThemeSection(ctx);
    } else {
      assert lines == lines + ThemeSection(ctx);
    }
  }

  /** The document list comes right after its heading, one line per document, in order. */
  function DocumentsStart(s: CorpusSummary): nat {
    4 + (if s.languages != {} then 1 else 0) + (if s.types != {} then 1 else 0)
  }

  /** The head of the section: the two counts, then languages and types only when there are any. */
  lemma SummaryHeadShape(s: CorpusSummary)
    ensures var h := SummaryHead(s);
      && |h| == DocumentsStart(s)
      && h[0] == DocumentCountLine(s.totalDocuments) && h[1] == TokenTotalLine(s.totalTokens)
      && (LanguagesLine(s.languages) in h <==> s.languages != {})
      && (TypesLine(s.types) in h <==> s.types != {})
      && h[|h| - 1] == DocumentsHeading
      && ThemesHeading !in h
  {
  }

  /**
    The shape of the summary part: its head, then one line per document, in
    order, after the documents heading.
   */
  lemma SummaryLinesShape(s: CorpusSummary)
    ensures var ls := SummaryLines(s);
      && |ls| == DocumentsStart(s) + |s.documents|
      && ls[0] == DocumentCountLine(s.totalDocuments) && ls[1] == TokenTotalLine(s.totalTokens)
      && (LanguagesLine(s.languages) in ls <==> s.languages != {})
      && (TypesLine(s.types) in ls <==> s.types != {})
      && ls[DocumentsStart(s) - 1] == DocumentsHeading
      && ThemesHeading !in ls
      && forall k :: 0 <= k < |s.documents| ==>
           ls[DocumentsStart(s) + k] == DocumentLine(s.documents[k].title, s.documents[k].pages, s.documents[k].tokens)
  {
    var h, ds := SummaryHead(s), DocumentLines(s.documents);
    var ls := SummaryLines(s);
    assert ls == h + ds;
    SummaryHeadShape(s);
    var n := |h|;
    assert ls[0] == h[0] && ls[1] == h[1] && ls[n - 1] == h[n - 1];
    OnlyDocumentLines(s.documents, LanguagesLine(s.languages));
    OnlyDocumentLines(s.documents, TypesLine(s.types));
    OnlyDocumentLines(s.documents, ThemesHeading);
    forall k | 0 <= k < |s.documents|
      ensures ls[n + k] == DocumentLine(s.documents[k].title, s.documents[k].pages, s.documents[k].tokens)
    {
      assert ls[n + k] == ds[k];
    }
  }

  lemma OnlyDocumentLines(docs: seq<DocDigest>, l: PromptLine)
    requires !l.DocumentLine?
    ensures l !in DocumentLines(docs)
  {
    var ds := DocumentLines(docs);
    assert forall k :: 0 <= k < |ds| ==> ds[k].DocumentLine?;
  }

  /** The theme heading appears exactly when the context has themes. */
  lemma ThemesHeadingIffThemes(ctx: PlanContext)
    ensures ThemesHeading in PromptLines(ctx) <==> ctx.themes != []
  {
    var summary := SummaryLines(ctx.corpusSummary);
    var ls := PromptLines(ctx);
    SummaryLinesShape(ctx.corpusSummary);
    if ctx.themes != [] {
      assert ls[|summary| + 1] == ThemesHeading;
    } else {
      assert ls == summary;
    }
  }

  /**
    The lines after the summary: none without themes; otherwise a blank line,
    the heading and one line per theme, in order, whose level classifies the
    theme's recorded average score, a theme without coverage being shown as
    weak with no chunk.
   */
  lemma ThemeSectionShape(ctx: PlanContext)
    ensures PromptLines(ctx)[|SummaryLines(ctx.corpusSummary)|..] == ThemeSection(ctx)
    ensures ctx.themes == [] ==> ThemeSection(ctx) == []
    ensures ctx.themes != [] ==>
      var ls := ThemeSection(ctx);
      && |ls| == 2 + |ctx.themes| && ls[0] == BlankLine && ls[1] == ThemesHeading
      && forall k :: 0 <= k < |ctx.themes| ==>
           && ls[2 + k].ThemeLine?
           && ls[2 + k].theme == ctx.themes[k]
           && ls[2 + k].level == Classify(CoverageFor(ctx.coverage, ctx.themes[k]).avgScore)
           && (ctx.themes[k] !in ctx.coverage ==> ls[2 + k] == ThemeLine(Weak, ctx.themes[k], 0.0, 0))
  {
    if ctx.themes != [] {
      var ls := ThemeSection(ctx);
      assert forall k :: 0 <= k < |ctx.themes| ==> ls[2 + k] == ThemeLines(ctx.themes, ctx.coverage)[k];
    }
  }
}
