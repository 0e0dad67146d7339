# Plan-corpus linker and JSON cleaning, modelled in Dafny

This project models the plan-corpus linker of the planner, the step that
analyses the corpus before a plan is generated. It also models the
`clean_json_string` helper used on model replies.

Given the metadata store, a vector-store lookup and the project configuration,
`link_plan_to_corpus` builds a `PlanContext` in three steps:

1. **Inventory of the corpus.** It counts the documents and their tokens, collects
   the distinct non-empty languages and document types, and makes one digest per
   document.
2. **Theme extraction.** It samples the first chunks of the first documents, then
   takes themes from one of two sources:
   - a heuristic: the distinct section titles, topped up with frequent words when
     fewer than three titles exist;
   - the AI provider, when there is one and generation does not raise. Its reply
     is read one theme per line, with enumeration marks stripped.

   Either way, at most fifteen themes are kept.
3. **Forecast coverage.** For every theme, the nearest chunks give an average
   similarity score and a count of relevant chunks.

`format_plan_context_for_prompt` turns the context into the lines of the
planning prompt's corpus section. Each theme carries a strong, partial or weak
coverage level.

## Modules

- `Wrappers`: `Option`.
- `Sequences`: Python slicing (`s[:n]`, negative `n` included), `split` and
  `join`, and the notion of a contiguous piece (`IsSlice`).
- `StringUtils`: `str.strip` over Python's whitespace set, the two fence
  substitutions, and `clean_json_string`.
- `PlanContexts`: documents, chunks, the corpus summary, chunk sampling, and
  `PlanContext` with `to_dict`.
- `ThemeExtraction`: `_extract_themes_simple`, and the reply parsing and
  fallback of `_extract_themes_llm`.
- `CoverageForecast`: the per-theme coverage loop of step 3.
- `PlanPrompt`: `format_plan_context_for_prompt`, its lines and coverage levels.
- `PlanCorpusLinker`: `link_plan_to_corpus` end to end.

## How the code is modelled

- **Loops become methods.** Each loop of the source is a method with a loop:
  sampling, the title and keyword loops, reply parsing, the coverage loop, and
  the two formatting loops. Each one is proved equal to a specification
  function, and the lemmas are stated on those functions.
- **Text operations are parameters.** `str.lower`, `str.capitalize`, the word
  tokeniser `re.findall(r"\b[a-zà-ÿ]{4,}\b", …)` and `Counter.most_common`
  are fields of a `TextOps` record of functions. For `most_common`, the
  keyword lemma assumes only the contract in `IsMostCommon`. The ranked words
  are distinct words of the input, as many as there are up to ten. Their counts
  do not increase along the list. No word left out occurs more often than the
  last word kept. The order among equal counts is left open.
- **Outside services are inputs.**
  - The store is a document list plus a function from a document id to its chunks.
  - The vector store is a function from a theme to a `Lookup`.
  - The provider is a default model plus a function from (objective, excerpt, model) to a `Reply`.
- **Scores are `real`.**

### Behaviour worth noting

- When titles are few, the code adds at most ten keywords (`most_common(10)`),
  then cuts the list to fifteen.
- The provider's themes are replaced by the heuristic's in two cases. The first
  is when generation raises. The second is when no reply line survives the
  cleaning, which happens inside `_extract_themes_llm`.
- The test that skips a known keyword compares the lower-case word with themes
  that are capitalised (lines 165–166). A capitalised word that is already a
  theme is therefore added a second time. `KeywordCanRepeatATheme` exhibits
  this, and the model keeps the code's behaviour.

## Model

| member | source | states |
|---|---|---|
| Sequences.Prefix | src/core/plan_corpus_linker.py:72-74 | Python `s[:n]`: a prefix of `s` of length `min(n, len(s))` for `n >= 0`, and `len(s) + n` elements (none when `-n >= len(s)`) for negative `n` |
| Sequences.PrefixOfShort | src/core/plan_corpus_linker.py:168 | slicing a list no longer than the bound keeps all of it |
| Sequences.Split | src/core/plan_corpus_linker.py:209 | `str.split("\n")` gives at least one piece; no piece holds the separator; every piece is a contiguous piece of the input |
| Sequences.JoinSplit | src/core/plan_corpus_linker.py:209 | joining the pieces of a split with the separator gives back the input |
| StringUtils.StripLeading | src/utils/string_utils.py:12 | the result is a suffix of the input and does not start with whitespace |
| StringUtils.StripLeadingDropsSpace | src/utils/string_utils.py:12 | everything the leading strip removes is whitespace |
| StringUtils.StripTrailing | src/utils/string_utils.py:12 | the result is a prefix of the input and does not end with whitespace |
| StringUtils.StripTrailingDropsSpace | src/utils/string_utils.py:12 | everything the trailing strip removes is whitespace |
| StringUtils.Strip | src/utils/string_utils.py:12 | `str.strip()` gives a contiguous piece of its input with no whitespace at either edge |
| StringUtils.StripRemovesOnlySpace | src/utils/string_utils.py:12 | the input is whitespace, then the result, then whitespace |
| StringUtils.StripLeadingAt | src/utils/string_utils.py:12 | if `s[..i]` is all whitespace and `s[i]` is not, the leading strip gives exactly `s[i..]` |
| StringUtils.StripTrailingAt | src/utils/string_utils.py:12 | if `s[j..]` is all whitespace and `s[j-1]` is not, the trailing strip gives exactly `s[..j]` |
| StringUtils.StripAllSpace | src/utils/string_utils.py:12 | a string made only of whitespace strips to the empty string |
| StringUtils.StripAt | src/utils/string_utils.py:12 | whitespace around a piece with no edge whitespace strips to exactly that piece |
| StringUtils.StripUnique | src/utils/string_utils.py:12 | the strip result is the only piece with this shape: whitespace around it and none at its edges |
| StringUtils.StripNoEdgeSpace | src/utils/string_utils.py:12 | text with no edge whitespace is left unchanged |
| StringUtils.StripIdempotent | src/utils/string_utils.py:12-16 | stripping twice is the same as stripping once |
| StringUtils.DropAsciiLetters | src/utils/string_utils.py:14 | `[a-zA-Z]*` is greedy: it removes only leading ASCII letters, and the rest does not start with one |
| StringUtils.RemoveOpeningFence | src/utils/string_utils.py:14 | the opening substitution removes only a prefix; text not starting with three backticks is unchanged |
| StringUtils.OpeningFenceWithTag | src/utils/string_utils.py:14 | three backticks, an ASCII-letter tag and one optional newline are removed, and nothing more |
| StringUtils.DropLettersOfTag | src/utils/string_utils.py:14 | the letter run stops exactly at the first non-letter |
| StringUtils.RemoveClosingFence | src/utils/string_utils.py:15 | the closing substitution removes nothing, three characters (the fence) or four (a newline and the fence); text ending neither with a fence nor with a fence and a newline is unchanged; on text not ending with a newline it removes only a suffix |
| StringUtils.FenceBeforeFinalNewline | src/utils/string_utils.py:15 | a fence matched just before a final newline, or at the true end, is a suffix of the text, either alone or followed by that newline |
| StringUtils.ClosingFenceAtEnd | src/utils/string_utils.py:15 | on text not ending with a newline, `\n?```$` removes a final fence, together with its newline if it has one, and nothing else |
| StringUtils.ClosingFenceOfBody | src/utils/string_utils.py:15 | a newline plus fence at the end is removed, leaving the body |
| StringUtils.NoClosingFence | src/utils/string_utils.py:15 | text ending neither with a fence nor with a newline is left unchanged |
| StringUtils.FenceRemovalIsSlice | src/utils/string_utils.py:13-15 | on stripped text the two substitutions leave a contiguous piece of it |
| StringUtils.UnclosedFenceSubstitutions | src/utils/string_utils.py:14-15 | for an opening fence with no closing fence, only the opening part is removed |
| StringUtils.FencedCleanIsSlice | src/utils/string_utils.py:12-16 | strip, remove the fences and strip again: the result is a piece of the input and no longer than it |
| StringUtils.CleanJsonString | src/utils/string_utils.py:6-16 | the cleaned text has no edge whitespace and is a contiguous piece of the input, never longer |
| StringUtils.CleanSteps | src/utils/string_utils.py:12-16 | the fences are removed only when the stripped text starts with three backticks; the text is stripped before and after |
| StringUtils.CleanUnfenced | src/utils/string_utils.py:12-16 | text that does not start with a fence once stripped is only stripped |
| StringUtils.BacktickEdgesNotStripped | src/utils/string_utils.py:12-13 | text that opens and closes with a backtick is not changed by the first strip |
| StringUtils.CleanFencedBlock | src/utils/string_utils.py:6-16 | a fenced block with a language tag (` ```json ` … ` ``` `) cleans to its stripped body |
| StringUtils.CleanUnclosedFence | src/utils/string_utils.py:12-16 | an unclosed fence loses its backticks, its tag and one newline; the rest is only stripped |
| PlanContexts.PlanContext.ToDict | src/core/plan_corpus_linker.py:22-27 | `to_dict` has exactly the three keys, and reading them back gives the same context |
| PlanContexts.SumTokensAppend | src/core/plan_corpus_linker.py:53 | the token total of two document lists is the sum of their totals |
| PlanContexts.SumTokensBoundsEach | src/core/plan_corpus_linker.py:53 | with non-negative counts, no single document has more tokens than the total |
| PlanContexts.SumTokensNonNegative | src/core/plan_corpus_linker.py:53 | with non-negative counts, the total is non-negative |
| PlanContexts.DistinctNonEmpty | src/core/plan_corpus_linker.py:54-55 | `set(v for v in values if v)` holds exactly the non-empty values that occur |
| PlanContexts.SummarizeCorpus | src/core/plan_corpus_linker.py:50-65 | the summary: the document count, the token sum, and exactly the non-empty languages and types that occur; one digest per document in order, with the title falling back to the file name |
| PlanContexts.SampleLeadingChunks | src/core/plan_corpus_linker.py:68-74 | the sampling loop gives the first `max_intro` chunks of each of the first `max_docs` documents, in document order |
| PlanContexts.IntroChunksSize | src/core/plan_corpus_linker.py:72-74 | at most `max_intro` chunks are taken per document |
| PlanContexts.SampleSize | src/core/plan_corpus_linker.py:69-74 | the sample holds at most `max_docs * max_intro` chunks |
| PlanContexts.IntroChunksOrigin | src/core/plan_corpus_linker.py:72-74 | every sampled chunk is among the first `max_intro` chunks of one of the documents |
| PlanContexts.SampleOrigin | src/core/plan_corpus_linker.py:72-74 | every sampled chunk comes from the first `max_intro` chunks of one of the first `max_docs` documents |
| ThemeExtraction.DistinctTitles | src/core/plan_corpus_linker.py:142-148 | the title loop keeps each non-empty title exactly once; nothing else is kept |
| ThemeExtraction.DistinctTitlesFirstSeenOrder | src/core/plan_corpus_linker.py:144-148 | titles are kept in the order of their first occurrence |
| ThemeExtraction.WithoutStopWords | src/core/plan_corpus_linker.py:158-162 | the filtered words are exactly the words that are not stop words |
| ThemeExtraction.AddKeywords | src/core/plan_corpus_linker.py:164-166 | the existing themes stay in front; each added theme is the capitalised form of one of the ranked words |
| ThemeExtraction.KeywordCanRepeatATheme | src/core/plan_corpus_linker.py:165-166 | the test uses the lower-case word, so a word whose capitalised form is already a theme is added again and the list gets a duplicate |
| ThemeExtraction.ThemesSimple | src/core/plan_corpus_linker.py:133-168 | the heuristic never gives more than fifteen themes |
| ThemeExtraction.ExtractThemesSimple | src/core/plan_corpus_linker.py:141-168 | the title and keyword loops compute the heuristic's themes |
| ThemeExtraction.ThemesFromManyTitles | src/core/plan_corpus_linker.py:144-168 | with at least three distinct titles, the themes are the first fifteen titles, in first-seen order, and no keyword is added |
| ThemeExtraction.ThemesFromFewTitles | src/core/plan_corpus_linker.py:151-168 | with fewer than three titles, the titles come first, followed by at most ten themes, each the capitalised form of a sampled word that is not a stop word |
| ThemeExtraction.ThemesOfNoChunks | src/core/plan_corpus_linker.py:141-168 | an empty sample gives no theme |
| ThemeExtraction.NonDictChunksIgnored | src/core/plan_corpus_linker.py:144-155 | items that are not dictionaries add no title and no text |
| ThemeExtraction.StripMarks | src/core/plan_corpus_linker.py:210 | `lstrip("0123456789.-•) ")` removes only enumeration marks, and the result does not start with one |
| ThemeExtraction.StripMarksShape | src/core/plan_corpus_linker.py:210 | removing the marks keeps a trailing non-whitespace character and leaves a piece of the line |
| ThemeExtraction.StripMarksKeepsEnd | src/core/plan_corpus_linker.py:210 | removing the leading marks keeps the line's last character unless nothing is left, and leaves a piece of the line |
| ThemeExtraction.CleanLineShape | src/core/plan_corpus_linker.py:210 | a cleaned line is a piece of the line that starts with no mark and ends with no whitespace |
| ThemeExtraction.KeptThemes | src/core/plan_corpus_linker.py:211-212 | the filter never adds lines |
| ThemeExtraction.KeptThemesMembers | src/core/plan_corpus_linker.py:211-212 | a line is kept exactly when it is longer than two characters |
| ThemeExtraction.KeepThemeLines | src/core/plan_corpus_linker.py:208-212 | the parsing loop cleans each line and keeps the long ones, in order |
| ThemeExtraction.ParseThemeLines | src/core/plan_corpus_linker.py:208-212 | the reply is stripped, split on newlines, then each line is cleaned and the long ones kept |
| ThemeExtraction.PieceOfSplitLine | src/core/plan_corpus_linker.py:209 | a piece of a split line has no line break and is a piece of the reply |
| ThemeExtraction.CleanedLineShape | src/core/plan_corpus_linker.py:209-210 | each cleaned reply line is a piece of the reply with no line break, no leading mark and no trailing whitespace |
| ThemeExtraction.ParsedThemeShape | src/core/plan_corpus_linker.py:208-212 | every parsed theme is longer than two characters, starts with no mark, ends with no whitespace, holds no line break and is a piece of the reply |
| ThemeExtraction.ParsedThemesKeepLongLines | src/core/plan_corpus_linker.py:208-212 | a string is a parsed theme exactly when it is longer than two characters and some reply line cleans to it |
| ThemeExtraction.ExtractThemesLlm | src/core/plan_corpus_linker.py:208-214 | the tail of `_extract_themes_llm`: the first fifteen parsed themes, or the heuristic when none are parsed |
| ThemeExtraction.LlmThemesShape | src/core/plan_corpus_linker.py:214 | at most fifteen themes; the heuristic's when no line survives; otherwise a prefix of the parsed themes, in order |
| ThemeExtraction.PromptExcerptIgnoresLaterChunks | src/core/plan_corpus_linker.py:178-182 | chunks after the thirtieth do not change the excerpt shown to the model |
| ThemeExtraction.ModelFor | src/core/plan_corpus_linker.py:196-199 | the configured model is used when it is present and non-empty; otherwise the provider's default |
| ThemeExtraction.LlmOutcome | src/core/plan_corpus_linker.py:196-214 | `_extract_themes_llm` has no outcome exactly when `generate` raises; a reply gives at most fifteen themes |
| ThemeExtraction.LlmOutcomeShape | src/core/plan_corpus_linker.py:200-214 | no outcome exactly when generation raises; otherwise at most fifteen themes: the parsed ones in order, or the heuristic's when none survive |
| CoverageForecast.CountAbove | src/core/plan_corpus_linker.py:101 | the count of scores above the threshold: at most the number of scores, all of them exactly when every score is above, none exactly when none is |
| CoverageForecast.CoverageOf | src/core/plan_corpus_linker.py:97-106 | a failed or empty lookup records score 0 and no chunk; otherwise the chunk count is at most the number of results |
| CoverageForecast.RelevantMeansClose | src/core/plan_corpus_linker.py:98-101 | a chunk counts as relevant exactly when its distance is below 0.7 |
| CoverageForecast.SumBounds | src/core/plan_corpus_linker.py:100 | a sum of values within `[lo, hi]` lies between `n*lo` and `n*hi` |
| CoverageForecast.AverageWithin | src/core/plan_corpus_linker.py:98-100 | if every distance lies in `[lo, hi]`, the average score lies in `[1-hi, 1-lo]` |
| CoverageForecast.CoverageMap | src/core/plan_corpus_linker.py:86-106 | there is one entry per theme and no other; each entry is computed from that theme's lookup |
| CoverageForecast.ForecastCoverage | src/core/plan_corpus_linker.py:90-106 | the per-theme loop builds exactly that map; a failing theme does not stop the others |
| CoverageForecast.UnmatchedThemeHasZeroCoverage | src/core/plan_corpus_linker.py:103-106 | a theme whose lookup fails or finds nothing is recorded with score 0 and no chunk |
| PlanPrompt.Classify | src/core/plan_corpus_linker.py:250-255 | strong exactly when the score is ≥ 0.5; partial exactly when it is in [0.3, 0.5); weak exactly when it is < 0.3 |
| PlanPrompt.ClassifyMonotone | src/core/plan_corpus_linker.py:250-255 | a higher average score never gets a lower level |
| PlanPrompt.AppendDocumentLines | src/core/plan_corpus_linker.py:238-239 | the document loop appends one line per document, in order |
| PlanPrompt.AppendThemeLines | src/core/plan_corpus_linker.py:245-257 | the theme loop appends one line per theme, in order, with its level, score and chunk count |
| PlanPrompt.FormatPlanContext | src/core/plan_corpus_linker.py:217-259 | the formatter produces the prompt section's lines: the summary, then the theme section when there are themes |
| PlanPrompt.SummaryHeadShape | src/core/plan_corpus_linker.py:226-237 | two counts first; a languages line and a types line only when there are languages and types; the documents heading last; no themes heading |
| PlanPrompt.SummaryLinesShape | src/core/plan_corpus_linker.py:226-239 | the documents heading is followed by one line per document, in order, carrying its title, pages and tokens |
| PlanPrompt.ThemesHeadingIffThemes | src/core/plan_corpus_linker.py:242-244 | the themes heading appears exactly when the context has themes |
| PlanPrompt.ThemeSectionShape | src/core/plan_corpus_linker.py:242-257 | after the summary come one line per theme, in order. Each line's level classifies the theme's stored score. A theme with no coverage entry shows as weak with score 0 and no chunk |
| PlanCorpusLinker.SelectThemes | src/core/plan_corpus_linker.py:77-83 | the selected themes never number more than fifteen |
| PlanCorpusLinker.LinkPlanToCorpus | src/core/plan_corpus_linker.py:30-130 | `link_plan_to_corpus` computes the linked context from its inputs |
| PlanCorpusLinker.HeuristicWithoutProvider | src/core/plan_corpus_linker.py:77-79 | without a provider, or with an empty sample, the themes are the heuristic's |
| PlanCorpusLinker.HeuristicWhenGenerationFails | src/core/plan_corpus_linker.py:79-83 | when generation raises, the heuristic's themes stay |
| PlanCorpusLinker.ProviderThemesWhenReplyIsUsable | src/core/plan_corpus_linker.py:79-83 | a reply with at least one usable line decides the themes: its first fifteen parsed lines, in order |
| PlanCorpusLinker.HeuristicWhenNoLineSurvives | src/core/plan_corpus_linker.py:208-214 | a reply from which no line survives the cleaning leaves the heuristic's themes |
| PlanCorpusLinker.LinkedContextShape | src/core/plan_corpus_linker.py:49-130 | the context holds the corpus summary (with the document count), at most fifteen themes, and exactly one coverage entry per theme, computed from that theme's lookup |
| PlanCorpusLinker.DefaultSampleSize | src/core/plan_corpus_linker.py:69-74 | without `plan_corpus_linking` settings, at most 30 × 3 chunks are sampled |

## Left out

- The metadata store (SQLite), the vector store (ChromaDB) and the local embedder are not modelled. They become a document list, a chunk function and a `Lookup` function per theme.
- The `ImportError` fallback (lines 107–124) queries by text instead of by embedding. Each theme still gets one lookup, so both paths are the same `lookup` function here.
- Any exception raised by one theme's query is counted as a failed lookup. Exceptions elsewhere, for example in the store's calls, are not modelled.
- The provider is an uninterpreted `generate` function. The prompt's wording, the system prompt, `temperature=0.3` and `max_tokens=500` are not modelled. Only the objective, the excerpt and the model reach `generate`.
- Logging (`logger.warning`) is not modelled. A warning has no effect on the result.
- `str.lower`, `str.capitalize`, the tokeniser regex and `Counter.most_common` are uninterpreted. The claim that keywords have four or more letters is not proven, and neither is the tie order of `most_common`.
- `list(set(...))` for languages and types has an order Python leaves unspecified. The model uses sets, so the order of the languages and types lines is not modelled.
- The text of each prompt line, the `:.2f` formatting of scores and the final `"\n".join` are not modelled. The formatter's result is a sequence of abstract lines.
- The formatter reads a dictionary. Keys it finds missing (`summary.get(..., 0)`, `cov.get(..., 0)`) are modelled only for coverage. The summary is always complete in the model, because `link_plan_to_corpus` builds it with every key.
- Document fields that are `None` or empty are represented as "". So `d.title or d.filename` and `if d.language` test for "".
- The objective is passed to `_extract_themes_simple` but never used there. The model leaves it out of the heuristic.
- `PlanContext` is a value. It is a dataclass in the source that nothing mutates after construction.
- ThemeExtraction.ThemesSimple: states only the fifteen-theme bound. How the themes are chosen is stated by `ThemesFromManyTitles` and `ThemesFromFewTitles`.
- PlanCorpusLinker.SelectThemes: states only the fifteen-theme bound. Which source the themes come from is stated by the four lemmas that follow it: `HeuristicWithoutProvider` (no provider or an empty sample), `HeuristicWhenGenerationFails`, `ProviderThemesWhenReplyIsUsable` and `HeuristicWhenNoLineSurvives`. Together they cover every case.
- The rest of the repository is not part of this model: the chunker, retrieval, reranking, the context assembler and the UI.
