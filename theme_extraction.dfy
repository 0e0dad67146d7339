/**
  Theme extraction of the plan-corpus linker (src/core/plan_corpus_linker.py):
  the local heuristic `_extract_themes_simple` and the reply parsing and
  fallback of `_extract_themes_llm`.
 */
module ThemeExtraction {
  import opened Wrappers
  import opened Sequences
  import opened StringUtils
  import opened PlanContexts

  const MaxThemes: int := 15
  const MaxKeywords: nat := 10
  const MinDistinctTitles: int := 3
  /** Only the first 500 characters of a chunk's text are sampled. */
  const SampledTextLength: int := 500

  /** The stop list of `_extract_themes_simple`. */
  const StopWords: set<string> := {
    "dans", "avec", "pour", "cette", "comme", "plus", "\U{ea}tre", "faire", "tout",
    "aussi", "entre", "mais", "tr\U{e8}s", "bien", "m\U{ea}me", "peut", "sont",
    "leur", "leurs", "nous", "vous"}

  /**
    The text operations the heuristic borrows from Python, left uninterpreted:
    `str.lower`, `str.capitalize`, `re.findall(r"\b[a-zà-ÿ]{4,}\b", ·)` and
    the words of `Counter(·).most_common(n)`, most frequent first.
   */
  datatype TextOps = TextOps(
    lower: string -> string,
    capitalize: string -> string,
    findWords: string -> seq<string>,
    mostCommon: (seq<string>, nat) -> seq<string>)

  /**
    What `Counter(words).most_common(n)` promises, up to the order of equal
    counts: distinct words of `words`, as many as there are up to `n`, in
    non-increasing count, none left out that is more frequent than the last.
   */
  ghost predicate IsMostCommon(ranked: seq<string>, words: seq<string>, n: nat) {
    var distinct := set w | w in words;
    && |ranked| == (if n < |distinct| then n else |distinct|)
    && (forall i, j :: 0 <= i < j < |ranked| ==> ranked[i] != ranked[j])
    && (forall w :: w in ranked ==> w in words)
    && (forall i, j :: 0 <= i < j < |ranked| ==> multiset(words)[ranked[i]] >= multiset(words)[ranked[j]])
    && (forall w :: w in words && w !in ranked && ranked != [] ==>
          multiset(words)[w] <= multiset(words)[ranked[|ranked| - 1]])
  }

  ghost predicate NoDuplicates(s: seq<string>) {
    forall i, j :: 0 <= i < j < |s| ==> s[i] != s[j]
  }

  /** `chunk.get("section_title", "")` for a dictionary, "" for anything else. */
  function TitleOf(c: Chunk): string {
    match c
    case DictChunk(title, _) => title
    case OtherChunk => ""
  }

  /** `c.get("text", "")[:500]` for a dictionary, "" for anything else. */
  function SampleOf(c: Chunk): string {
    match c
    case DictChunk(_, text) => Prefix(text, SampledTextLength)
    case OtherChunk => ""
  }

  function Titles(chunks: seq<Chunk>): (ts: seq<string>)
    ensures |ts| == |chunks| && forall k :: 0 <= k < |chunks| ==> ts[k] == TitleOf(chunks[k])
  {
    seq(|chunks|, k requires 0 <= k < |chunks| => TitleOf(chunks[k]))
  }

  /** One step of the title loop: a new non-empty title is appended. */
  function AddTitle(themes: seq<string>, title: string): seq<string> {
    if title != "" && title !in themes then themes + [title] else themes
  }

  /** The title loop of `_extract_themes_simple`, run over `titles`. */
  function DistinctTitles(titles: seq<string>): (r: seq<string>)
    ensures NoDuplicates(r)
    ensures forall t :: t in r <==> t != "" && t in titles
    ensures |r| <= |titles|
  {
    if titles == [] then []
    else AddTitle(DistinctTitles(titles[..|titles| - 1]), titles[|titles| - 1])
  }

  /** `x` occurs in `titles` before position `k`. */
  ghost predicate SeenBefore(titles: seq<string>, k: int, x: string) {
    exists m :: 0 <= m < k && m < |titles| && titles[m] == x
  }

  /** Each occurrence of a later element of `r` in `titles` is preceded by an occurrence of every earlier one. */
  ghost predicate FirstSeenOrder(r: seq<string>, titles: seq<string>) {
    forall i, j, k :: 0 <= i < j < |r| && 0 <= k < |titles| && titles[k] == r[j] ==> SeenBefore(titles, k, r[i])
  }

  /** The distinct titles come in order of first occurrence. */
  lemma {:induction false} DistinctTitlesFirstSeenOrder(titles: seq<string>)
    ensures FirstSeenOrder(DistinctTitles(titles), titles)
  {
    if titles != [] {
      var n := |titles|;
      var front := titles[..n - 1];
      var prev := DistinctTitles(front);
      var r := DistinctTitles(titles);
      DistinctTitlesFirstSeenOrder(front);
      forall i, j, k | 0 <= i < j < |r| && 0 <= k < n && titles[k] == r[j]
        ensures SeenBefore(titles, k, r[i])
      {
        if j < |prev| {
          assert r[i] == prev[i] && r[j] == prev[j];
          if k < n - 1 {
            assert front[k] == prev[j];
            assert SeenBefore(front, k, prev[i]);
            var m :| 0 <= m < k && front[m] == prev[i];
            assert titles[m] == r[i];
          } else {
            assert prev[j] in front;
            var k' :| 0 <= k' < n - 1 && front[k'] == prev[j];
            assert SeenBefore(front, k', prev[i]);
            var m :| 0 <= m < k' && front[m] == prev[i];
            assert titles[m] == r[i];
          }
        } else {
          assert r == prev + [titles[n - 1]] && r[j] == titles[n - 1];
          assert r[j] !in front;
          if k < n - 1 {
            assert false;
          }
          assert r[i] == prev[i] && r[i] in front;
          var m :| 0 <= m < n - 1 && front[m] == r[i];
          assert titles[m] == r[i];
        }
      }
    }
  }

  /** `" ".join(c.get("text", "")[:500] if isinstance(c, dict) else "" for c in chunks)`. */
  function SampledText(chunks: seq<Chunk>): string {
    Join(seq(|chunks|, k requires 0 <= k < |chunks| => SampleOf(chunks[k])), " ")
  }

  /** `[w for w in words if w not in stop_words]`. */
  function WithoutStopWords(words: seq<string>): (r: seq<string>)
    ensures forall w :: w in r <==> w in words && w !in StopWords
    ensures |r| <= |words|
  {
    if words == [] then []
    else (if words[0] in StopWords then [] else [words[0]]) + WithoutStopWords(words[1..])
  }

  /** The words found in the lower-cased sample text. */
  function SampleWords(chunks: seq<Chunk>, ops: TextOps): seq<string> {
    ops.findWords(ops.lower(SampledText(chunks)))
  }

  /** `[word for word, _ in Counter(filtered).most_common(10)]`. */
  function Keywords(chunks: seq<Chunk>, ops: TextOps): seq<string> {
    ops.mostCommon(WithoutStopWords(SampleWords(chunks, ops)), MaxKeywords)
  }

  /**
    The keyword loop: a word is appended, capitalised, when the word as it
    stands (lower case) is not already among the themes.
   */
  function AddKeywords(themes: seq<string>, words: seq<string>, capitalize: string -> string): (r: seq<string>)
    ensures |themes| <= |r| <= |themes| + |words| && r[..|themes|] == themes
    ensures forall k :: |themes| <= k < |r| ==> exists w :: w in words && r[k] == capitalize(w)
  {
    if words == [] then themes
    else
      var prev := AddKeywords(themes, words[..|words| - 1], capitalize);
      var w := words[|words| - 1];
      var r := if w !in prev then prev + [capitalize(w)] else prev;
      assert forall v :: v in words[..|words| - 1] ==> v in words;
      r
  }

  /**
    Because the test compares the lower-case word and not its capitalised
    form, a keyword whose capitalised form is already a theme is added again.
   */
  lemma KeywordCanRepeatATheme(themes: seq<string>, w: string, capitalize: string -> string)
    requires w !in themes && capitalize(w) in themes
    ensures var r := AddKeywords(themes, [w], capitalize);
      r == themes + [capitalize(w)] && !NoDuplicates(r)
  {
    var r := AddKeywords(themes, [w], capitalize);
    assert [w][..0] == [];
    var i :| 0 <= i < |themes| && themes[i] == capitalize(w);
    assert r[i] == r[|themes|];
  }

  /** `_extract_themes_simple(chunks, objective)`; the objective is not used. */
  function ThemesSimple(chunks: seq<Chunk>, ops: TextOps): (r: seq<string>)
    ensures |r| <= MaxThemes
  {
    var titles := DistinctTitles(Titles(chunks));
    var themes := if |titles| < MinDistinctTitles then AddKeywords(titles, Keywords(chunks, ops), ops.capitalize) else titles;
    Prefix(themes, MaxThemes)
  }

  /** `_extract_themes_simple` with its two loops. */
  method ExtractThemesSimple(chunks: seq<Chunk>, ops: TextOps) returns (themes: seq<string>)
    ensures themes == ThemesSimple(chunks, ops)
  {
    themes := [];
    var sectionTitles: set<string> := {};
    var titles := Titles(chunks);
    for i := 0 to |chunks|
      invariant themes == DistinctTitles(titles[..i])
      invariant sectionTitles == set t | t in themes
    {
      assert titles[..i + 1][..i] == titles[..i];
      var title := TitleOf(chunks[i]);
      if title != "" && title !in sectionTitles {
        sectionTitles := sectionTitles + {title};
        themes := themes + [title];
      }
    }
    assert titles[..|chunks|] == titles;
    if |themes| < MinDistinctTitles {
      var base := themes;
      var ranked := Keywords(chunks, ops);
      for j := 0 to |ranked|
        invariant themes == AddKeywords(base, ranked[..j], ops.capitalize)
      {
        assert ranked[..j + 1][..j] == ranked[..j];
        var word := ranked[j];
        if word !in themes {
          themes := themes + [ops.capitalize(word)];
        }
      }
      assert ranked[..|ranked|] == ranked;
    }
    themes := Prefix(themes, MaxThemes);
  }

  /** With three or more distinct titles the themes are the first fifteen of them. */
  lemma ThemesFromManyTitles(chunks: seq<Chunk>, ops: TextOps)
    requires |DistinctTitles(Titles(chunks))| >= MinDistinctTitles
    ensures ThemesSimple(chunks, ops) == Prefix(DistinctTitles(Titles(chunks)), MaxThemes)
  {
  }

  /**
    With fewer than three distinct titles the themes are those titles followed
    by at most ten capitalised keywords, each taken from the sample's words
    outside the stop list.
   */
  lemma ThemesFromFewTitles(chunks: seq<Chunk>, ops: TextOps)
    requires |DistinctTitles(Titles(chunks))| < MinDistinctTitles
    requires IsMostCommon(Keywords(chunks, ops), WithoutStopWords(SampleWords(chunks, ops)), MaxKeywords)
    ensures var titles := DistinctTitles(Titles(chunks));
      var r := ThemesSimple(chunks, ops);
      && |titles| <= |r| <= |titles| + MaxKeywords
      && r[..|titles|] == titles
      && forall k :: |titles| <= k < |r| ==>
           exists w :: w in SampleWords(chunks, ops) && w !in StopWords && r[k] == ops.capitalize(w)
  {
    var titles := DistinctTitles(Titles(chunks));
    var ranked := Keywords(chunks, ops);
    var all := AddKeywords(titles, ranked, ops.capitalize);
    PrefixOfShort(all, MaxThemes);
    forall k | |titles| <= k < |all|
      ensures exists w :: w in SampleWords(chunks, ops) && w !in StopWords && all[k] == ops.capitalize(w)
    {
      var w :| w in ranked && all[k] == ops.capitalize(w);
      assert w in WithoutStopWords(SampleWords(chunks, ops));
    }
  }

  /** No chunks, no themes: the empty text holds no word. */
  lemma ThemesOfNoChunks(ops: TextOps)
    requires ops.findWords(ops.lower("")) == []
    requires ops.mostCommon([], MaxKeywords) == []
    ensures ThemesSimple([], ops) == []
  {
    assert SampledText([]) == "";
    assert WithoutStopWords([]) == [];
  }

  /** Only the dictionaries among `chunks`, in order. */
  function DictChunks(chunks: seq<Chunk>): seq<Chunk> {
    if chunks == [] then []
    else DictChunks(chunks[..|chunks| - 1]) + (if chunks[|chunks| - 1].DictChunk? then [chunks[|chunks| - 1]] else [])
  }

  /** Items that are not dictionaries add no title and no sampled text. */
  lemma {:induction false} NonDictChunksIgnored(chunks: seq<Chunk>)
    ensures DistinctTitles(Titles(chunks)) == DistinctTitles(Titles(DictChunks(chunks)))
    ensures forall k :: 0 <= k < |chunks| && !chunks[k].DictChunk? ==> SampleOf(chunks[k]) == ""
  {
    if chunks != [] {
      var n := |chunks|;
      var front := chunks[..n - 1];
      NonDictChunksIgnored(front);
      assert Titles(chunks)[..n - 1] == Titles(front);
      var dicts := DictChunks(front);
      if chunks[n - 1].DictChunk? {
        var d := dicts + [chunks[n - 1]];
        assert DictChunks(chunks) == d;
        assert Titles(d)[..|d| - 1] == Titles(dicts);
      } else {
        assert DictChunks(chunks) == dicts;
      }
    }
  }

  /** The characters `lstrip("0123456789.-•) ")` removes. */
  const EnumerationMarks: set<char> := {'0', '1', '2', '3', '4', '5', '6', '7', '8', '9', '.', '-', '\U{2022}', ')', ' '}

  /** `s.lstrip("0123456789.-•) ")`. */
  function StripMarks(s: string): (r: string)
    ensures |r| <= |s| && r == s[|s| - |r|..]
    ensures forall k :: 0 <= k < |s| - |r| ==> s[k] in EnumerationMarks
    ensures r == [] || r[0] !in EnumerationMarks
  {
    if s != [] && s[0] in EnumerationMarks then StripMarks(s[1..]) else s
  }

  /** `line.strip().lstrip("0123456789.-•) ")`. */
  function CleanLine(line: string): string {
    StripMarks(Strip(line))
  }

  /** Removing leading marks keeps a trailing character that is not whitespace, and leaves a piece of the input. */
  lemma StripMarksShape(s: string)
    requires s == [] || !IsSpace(s[|s| - 1])
    ensures var t := StripMarks(s);
      (t == [] || !IsSpace(t[|t| - 1])) && IsSlice(t, s)
  {
    var t := StripMarks(s);
    StripMarksKeepsEnd(s);
    if t != [] {
      assert t[|t| - 1] == s[|s| - 1];
    }
  }

  lemma StripMarksKeepsEnd(s: string)
    ensures var t := StripMarks(s);
      (t == [] || t[|t| - 1] == s[|s| - 1]) && IsSlice(t, s)
  {
    var t := StripMarks(s);
    var cut := |s| - |t|;
    assert t == s[cut..];
    SliceOfSlice(s, cut, |s|);
  }

  /** A cleaned line starts with no enumeration mark, ends with no whitespace and is a piece of the line. */
  lemma CleanLineShape(line: string)
    ensures var t := CleanLine(line);
      (t == [] || (t[0] !in EnumerationMarks && !IsSpace(t[|t| - 1]))) && IsSlice(t, line)
  {
    var stripped := Strip(line);
    StripMarksShape(stripped);
    IsSliceTransitive(StripMarks(stripped), stripped, line);
  }

  /** `if line and len(line) > 2`. */
  predicate KeepsTheme(t: string) {
    t != "" && |t| > 2
  }

  /** Each line cleaned. */
  function CleanLines(lines: seq<string>): seq<string> {
    seq(|lines|, k requires 0 <= k < |lines| => CleanLine(lines[k]))
  }

  /** The cleaned lines worth keeping, in order. */
  function KeptThemes(ts: seq<string>): (r: seq<string>)
    ensures |r| <= |ts|
  {
    if ts == [] then []
    else
      var t := ts[|ts| - 1];
      KeptThemes(ts[..|ts| - 1]) + (if KeepsTheme(t) then [t] else [])
  }

  /** A cleaned line is kept exactly when it is long enough. */
  lemma {:induction false} KeptThemesMembers(ts: seq<string>, t: string)
    ensures t in KeptThemes(ts) <==> t in ts && KeepsTheme(t)
  {
    if ts != [] {
      KeptThemesMembers(ts[..|ts| - 1], t);
      assert ts == ts[..|ts| - 1] + [ts[|ts| - 1]];
    }
  }

  /** The themes read off a model reply: `response.content.strip().split("\n")`, cleaned and filtered. */
  function ParsedThemes(content: string): seq<string> {
    KeptThemes(CleanLines(Split(Strip(content), '\n')))
  }

  /** The line loop of `_extract_themes_llm`, over the lines of the reply. */
  method KeepThemeLines(lines: seq<string>) returns (themes: seq<string>)
    ensures themes == KeptThemes(CleanLines(lines))
  {
    ghost var cleaned := CleanLines(lines);
    themes := [];
    for i := 0 to |lines|
      invariant themes == KeptThemes(cleaned[..i])
    {
      var line := CleanLine(lines[i]);
      assert line == cleaned[i];
      assert cleaned[..i + 1][..i] == cleaned[..i] && cleaned[..i + 1][i] == line;
      assert KeptThemes(cleaned[..i + 1]) == KeptThemes(cleaned[..i]) + (if KeepsTheme(line) then [line] else []);
      if line != "" && |line| > 2 {
        themes := themes + [line];
      }
    }
    assert cleaned[..|lines|] == cleaned;
  }

  /** The reply parsing of `_extract_themes_llm`. */
  method ParseThemeLines(content: string) returns (themes: seq<string>)
    ensures themes == ParsedThemes(content)
  {
    var lines := Split(Strip(content), '\n');
    themes := KeepThemeLines(lines);
  }

  /** A piece of a line of `s.split("\n")` holds no line break and is a piece of `s`. */
  lemma PieceOfSplitLine(s: string, line: string, t: string)
    requires line in Split(s, '\n') && IsSlice(t, line)
    ensures '\n' !in t && IsSlice(t, s)
  {
    var i, j :| 0 <= i <= j <= |line| && t == line[i..j];
    assert forall c :: c in t ==> c in line;
    IsSliceTransitive(t, line, s);
  }

  /** The cleaned form of a line of `s.split("\n")` has the shape of a theme and is a piece of `s`. */
  lemma CleanedLineShape(s: string, line: string)
    requires line in Split(s, '\n')
    ensures var t := CleanLine(line);
      && (t == [] || (t[0] !in EnumerationMarks && !IsSpace(t[|t| - 1])))
      && '\n' !in t && IsSlice(t, s)
  {
    CleanLineShape(line);
    PieceOfSplitLine(s, line, CleanLine(line));
  }

  /**
    Every parsed theme is longer than two characters, starts with no
    enumeration mark, ends with no whitespace, holds no line break and is a
    contiguous piece of the reply.
   */
  lemma ParsedThemeShape(content: string, t: string)
    requires t in ParsedThemes(content)
    ensures |t| > 2 && t[0] !in EnumerationMarks && !IsSpace(t[|t| - 1])
    ensures '\n' !in t && IsSlice(t, content)
  {
    var stripped := Strip(content);
    var lines := Split(stripped, '\n');
    var cleaned := CleanLines(lines);
    KeptThemesMembers(cleaned, t);
    var k :| 0 <= k < |cleaned| && cleaned[k] == t;
    var line := lines[k];
    assert t == CleanLine(line) && line in lines;
    CleanedLineShape(stripped, line);
    IsSliceTransitive(t, stripped, content);
  }

  /** A theme is parsed exactly when it is longer than two characters and some reply line cleans to it. */
  lemma ParsedThemesKeepLongLines(content: string, t: string)
    ensures t in ParsedThemes(content) <==> |t| > 2 && t in CleanLines(Split(Strip(content), '\n'))
  {
    KeptThemesMembers(CleanLines(Split(Strip(content), '\n')), t);
  }

  /** The tail of `_extract_themes_llm`: the first fifteen parsed themes, or the heuristic when none survive. */
  function LlmThemes(chunks: seq<Chunk>, content: string, ops: TextOps): seq<string> {
    var parsed := ParsedThemes(content);
    if parsed != [] then Prefix(parsed, MaxThemes) else ThemesSimple(chunks, ops)
  }

  method ExtractThemesLlm(chunks: seq<Chunk>, content: string, ops: TextOps) returns (themes: seq<string>)
    ensures themes == LlmThemes(chunks, content, ops)
  {
    themes := ParseThemeLines(content);
    if themes != [] {
      themes := Prefix(themes, MaxThemes);
    } else {
      themes := ExtractThemesSimple(chunks, ops);
    }
  }

  /** At most fifteen themes; the heuristic when nothing survives; otherwise the parsed themes in order. */
  lemma LlmThemesShape(chunks: seq<Chunk>, content: string, ops: TextOps)
    ensures |LlmThemes(chunks, content, ops)| <= MaxThemes
    ensures ParsedThemes(content) == [] ==> LlmThemes(chunks, content, ops) == ThemesSimple(chunks, ops)
    ensures ParsedThemes(content) != [] ==>
      LlmThemes(chunks, content, ops) == ParsedThemes(content)[..|LlmThemes(chunks, content, ops)|]
  {
  }

  /** Only the first thirty chunks are shown to the model. */
  const MaxPromptChunks: int := 30
  /** The separator between two excerpts in the prompt. */
  const ExcerptSeparator: string := "\n---\n"

  /** `theme_text`: the sampled text of the first thirty chunks, one excerpt each. */
  function PromptExcerpt(chunks: seq<Chunk>): string {
    var shown := Prefix(chunks, MaxPromptChunks);
    Join(seq(|shown|, k requires 0 <= k < |shown| => SampleOf(shown[k])), ExcerptSeparator)
  }

  /** Chunks after the thirtieth never reach the prompt. */
  lemma PromptExcerptIgnoresLaterChunks(a: seq<Chunk>, b: seq<Chunk>)
    requires |a| >= MaxPromptChunks
    ensures PromptExcerpt(a + b) == PromptExcerpt(a)
  {
    assert Prefix(a + b, MaxPromptChunks) == Prefix(a, MaxPromptChunks);
  }

  /** The outcome of `provider.generate`: an exception, or a response with its content. */
  datatype Reply = GenerationFailed | Generated(content: string)

  /**
    An AI provider: its default model, and its answer to the prompt built
    from an objective and an excerpt, asked of a given model.
   */
  datatype Provider = Provider(defaultModel: string, generate: (string, string, string) -> Reply)

  /** `config.get("model")`, or the provider's default when that is absent or empty. */
  function ModelFor(configured: Option<string>, p: Provider): (model: string)
    ensures configured.Some? && configured.value != "" ==> model == configured.value
    ensures (configured.None? || configured.value == "") ==> model == p.defaultModel
  {
    if configured.Some? && configured.value != "" then configured.value else p.defaultModel
  }

  /** `_extract_themes_llm`: `None` when generation raises, which the caller catches. */
  function LlmOutcome(chunks: seq<Chunk>, objective: string, p: Provider, configured: Option<string>, ops: TextOps)
    : (r: Option<seq<string>>)
    ensures r.None? <==> p.generate(objective, PromptExcerpt(chunks), ModelFor(configured, p)).GenerationFailed?
    ensures r.Some? ==> |r.value| <= MaxThemes
  {
    match p.generate(objective, PromptExcerpt(chunks), ModelFor(configured, p))
    case GenerationFailed => None
    case Generated(content) => Some(LlmThemes(chunks, content, ops))
  }

  /** A reply yields at most fifteen themes, read off the reply, or those of the heuristic. */
  lemma LlmOutcomeShape(chunks: seq<Chunk>, objective: string, p: Provider, configured: Option<string>, ops: TextOps)
    ensures var reply := p.generate(objective, PromptExcerpt(chunks), ModelFor(configured, p));
      var r := LlmOutcome(chunks, objective, p, configured, ops);
      && (r.None? <==> reply.GenerationFailed?)
      && (r.Some? ==> |r.value| <= MaxThemes)
      && (r.Some? && ParsedThemes(reply.content) == [] ==> r.value == ThemesSimple(chunks, ops))
      && (r.Some? && ParsedThemes(reply.content) != [] ==>
            r.value == ParsedThemes(reply.content)[..|r.value|] && r.value != [])
  {
    var reply := p.generate(objective, PromptExcerpt(chunks), ModelFor(configured, p));
    if reply.Generated? {
      LlmThemesShape(chunks, reply.content, ops);
    }
  }
}
