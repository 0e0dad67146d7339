/**
  Model of `clean_json_string`: strips the Markdown code fence that often
  wraps the JSON answer of a language model (src/utils/string_utils.py).
 */
module StringUtils {
  import opened Sequences

  /** Python's `str.isspace` for one character, listed by code point. */
  predicate IsSpace(c: char) {
    var n := c as int;
    || (9 <= n <= 13)            // \t \n \v \f \r
    || (28 <= n <= 32)           // file/group/record/unit separators, space
    || n == 0x85 || n == 0xA0 || n == 0x1680
    || (0x2000 <= n <= 0x200A)
    || n == 0x2028 || n == 0x2029 || n == 0x202F || n == 0x205F || n == 0x3000
  }

  ghost predicate AllSpace(s: string) {
    forall k :: 0 <= k < |s| ==> IsSpace(s[k])
  }

  /** Neither the first nor the last character is whitespace. */
  predicate NoEdgeSpace(s: string) {
    s == [] || (!IsSpace(s[0]) && !IsSpace(s[|s| - 1]))
  }

  /** Python's `str.lstrip()`. */
  function StripLeading(s: string): (r: string)
    ensures |r| <= |s| && r == s[|s| - |r|..]
    ensures r == [] || !IsSpace(r[0])
  {
    if s != [] && IsSpace(s[0]) then StripLeading(s[1..]) else s
  }

  /** Python's `str.rstrip()`. */
  function StripTrailing(s: string): (r: string)
    ensures |r| <= |s| && r == s[..|r|]
    ensures r == [] || !IsSpace(r[|r| - 1])
  {
    if s != [] && IsSpace(s[|s| - 1]) then StripTrailing(s[..|s| - 1]) else s
  }

  /** What `lstrip` drops is whitespace. */
  lemma {:induction false} StripLeadingDropsSpace(s: string)
    ensures AllSpace(s[..|s| - |StripLeading(s)|])
  {
    if s != [] && IsSpace(s[0]) {
      var tail := s[1..];
      StripLeadingDropsSpace(tail);
      var n := |StripLeading(tail)|;
      var dropped, rest := s[..|s| - n], tail[..|tail| - n];
      forall k | 0 <= k < |dropped| ensures IsSpace(dropped[k]) {
        if k > 0 {
          assert dropped[k] == rest[k - 1];
        }
      }
    }
  }

  /** What `rstrip` drops is whitespace. */
  lemma {:induction false} StripTrailingDropsSpace(s: string)
    ensures AllSpace(s[|StripTrailing(s)|..])
  {
    if s != [] && IsSpace(s[|s| - 1]) {
      var front := s[..|s| - 1];
      StripTrailingDropsSpace(front);
      var n := |StripTrailing(front)|;
      var dropped, rest := s[n..], front[n..];
      forall k | 0 <= k < |dropped| ensures IsSpace(dropped[k]) {
        if k < |rest| {
          assert dropped[k] == rest[k];
        }
      }
    }
  }

  /**
    `r` is `s` with a whitespace-only prefix and a whitespace-only suffix
    removed, and `r` itself has no whitespace at either end.
   */
  ghost predicate StrippedFrom(r: string, s: string) {
    && NoEdgeSpace(r)
    && exists i, j :: 0 <= i <= j <= |s| && r == s[i..j] && AllSpace(s[..i]) && AllSpace(s[j..])
  }

  /** Python's `str.strip()` with no argument. */
  function Strip(s: string): (r: string)
    ensures NoEdgeSpace(r)
    ensures IsSlice(r, s)
  {
    var a := StripLeading(s);
    var r := StripTrailing(a);
    assert r == s[|s| - |a|..|s| - |a| + |r|];
    r
  }

  /** `Strip` removes whitespace and nothing else, from the two ends only. */
  lemma StripRemovesOnlySpace(s: string)
    ensures StrippedFrom(Strip(s), s)
  {
    var a := StripLeading(s);
    var r := StripTrailing(a);
    StripLeadingDropsSpace(s);
    StripTrailingDropsSpace(a);
    var i := |s| - |a|;
    assert r == s[i..i + |r|];
    assert s[i + |r|..] == a[|r|..];
  }

  /** Leading whitespace up to the first other character is what `lstrip` drops. */
  lemma {:induction false} StripLeadingAt(s: string, i: nat)
    requires i <= |s| && AllSpace(s[..i])
    requires i == |s| || !IsSpace(s[i])
    ensures StripLeading(s) == s[i..]
    decreases i
  {
    if i > 0 {
      var head, tail := s[..i], s[1..];
      assert IsSpace(head[0]);
      var spaces := tail[..i - 1];
      assert AllSpace(spaces) by {
        forall k | 0 <= k < i - 1 ensures IsSpace(spaces[k]) {
          assert spaces[k] == head[k + 1];
        }
      }
      StripLeadingAt(tail, i - 1);
      assert tail[i - 1..] == s[i..];
    }
  }

  /** Trailing whitespace after the last other character is what `rstrip` drops. */
  lemma {:induction false} StripTrailingAt(s: string, j: nat)
    requires j <= |s| && AllSpace(s[j..])
    requires j == 0 || !IsSpace(s[j - 1])
    ensures StripTrailing(s) == s[..j]
    decreases |s| - j
  {
    if j < |s| {
      var n := |s|;
      var after, front := s[j..], s[..n - 1];
      assert IsSpace(after[n - 1 - j]);
      var spaces := front[j..];
      assert AllSpace(spaces) by {
        forall k | 0 <= k < n - 1 - j ensures IsSpace(spaces[k]) {
          assert spaces[k] == after[k];
        }
      }
      StripTrailingAt(front, j);
      assert front[..j] == s[..j];
    }
  }

  /** A string made only of whitespace strips to nothing. */
  lemma StripAllSpace(s: string)
    requires AllSpace(s)
    ensures Strip(s) == []
  {
    assert s[..|s|] == s;
    StripLeadingAt(s, |s|);
  }

  /** Two whitespace-only halves make a whitespace-only string. */
  lemma AllSpaceJoin(s: string, i: nat)
    requires i <= |s| && AllSpace(s[..i]) && AllSpace(s[i..])
    ensures AllSpace(s)
  {
    var before, after := s[..i], s[i..];
    forall k | 0 <= k < |s| ensures IsSpace(s[k]) {
      if k < i { assert before[k] == s[k]; } else { assert after[k - i] == s[k]; }
    }
  }

  /** Cutting whitespace-only ends off a string, down to a non-empty piece with no edge whitespace, is `Strip`. */
  lemma StripToPiece(s: string, i: nat, j: nat)
    requires i < j <= |s| && AllSpace(s[..i]) && AllSpace(s[j..])
    requires !IsSpace(s[i]) && !IsSpace(s[j - 1])
    ensures Strip(s) == s[i..j]
  {
    StripLeadingAt(s, i);
    StripTrailingOfSuffix(s, i, j);
  }

  /** `rstrip` of a suffix `s[i..]` stops at the last character before a whitespace-only tail. */
  lemma StripTrailingOfSuffix(s: string, i: nat, j: nat)
    requires i < j <= |s| && AllSpace(s[j..]) && !IsSpace(s[j - 1])
    ensures StripTrailing(s[i..]) == s[i..j]
  {
    var a := s[i..];
    assert a[j - i..] == s[j..];
    assert a[j - i - 1] == s[j - 1];
    StripTrailingAt(a, j - i);
    assert a[..j - i] == s[i..j];
  }

  /** Cutting whitespace-only ends off, down to a piece with no edge whitespace, is `Strip`. */
  lemma StripAt(s: string, i: nat, j: nat)
    requires i <= j <= |s| && AllSpace(s[..i]) && AllSpace(s[j..])
    requires NoEdgeSpace(s[i..j])
    ensures Strip(s) == s[i..j]
  {
    if i == j {
      AllSpaceJoin(s, i);
      StripAllSpace(s);
    } else {
      var r := s[i..j];
      assert r[0] == s[i] && r[|r| - 1] == s[j - 1];
      StripToPiece(s, i, j);
    }
  }

  /** Whatever meets the declarative description is what `Strip` returns. */
  lemma StripUnique(r: string, s: string)
    requires StrippedFrom(r, s)
    ensures r == Strip(s)
  {
    var i, j :| 0 <= i <= j <= |s| && r == s[i..j] && AllSpace(s[..i]) && AllSpace(s[j..]);
    StripAt(s, i, j);
  }

  /** A string without whitespace at its ends is left alone by `Strip`. */
  lemma StripNoEdgeSpace(s: string)
    requires NoEdgeSpace(s)
    ensures Strip(s) == s
  {
    assert StripLeading(s) == s;
    assert StripTrailing(s) == s;
  }

  /** Stripping twice is stripping once. */
  lemma StripIdempotent(s: string)
    ensures Strip(Strip(s)) == Strip(s)
  {
    StripNoEdgeSpace(Strip(s));
  }

  predicate IsAsciiLetter(c: char) {
    'a' <= c <= 'z' || 'A' <= c <= 'Z'
  }

  /** The greedy `[a-zA-Z]*` of the opening-fence pattern: drop leading ASCII letters. */
  function DropAsciiLetters(s: string): (r: string)
    ensures |r| <= |s| && r == s[|s| - |r|..]
    ensures forall k :: 0 <= k < |s| - |r| ==> IsAsciiLetter(s[k])
    ensures r == [] || !IsAsciiLetter(r[0])
  {
    if s != [] && IsAsciiLetter(s[0]) then DropAsciiLetters(s[1..]) else s
  }

  const Fence: string := "```"

  /**
    `re.sub(r"^```[a-zA-Z]*\n?", "", t)`: `^` matches only at the start, so at
    most one replacement; the letter run is greedy and the newline optional.
   */
  function RemoveOpeningFence(t: string): (r: string)
    ensures |r| <= |t| && r == t[|t| - |r|..]
    ensures !(Fence <= t) ==> r == t
  {
    if Fence <= t then
      var rest := DropAsciiLetters(t[3..]);
      if rest != [] && rest[0] == '\n' then rest[1..] else rest
    else t
  }

  /** The opening fence, its language tag and one newline go; the rest stays. */
  lemma {:induction false} OpeningFenceWithTag(tag: string, rest: string)
    requires forall k :: 0 <= k < |tag| ==> IsAsciiLetter(tag[k])
    requires rest == [] || !IsAsciiLetter(rest[0])
    ensures RemoveOpeningFence(Fence + tag + rest)
         == if rest != [] && rest[0] == '\n' then rest[1..] else rest
    decreases |tag|
  {
    var t := Fence + tag + rest;
    assert Fence <= t;
    assert t[3..] == tag + rest;
    DropLettersOfTag(tag, rest);
  }

  lemma {:induction false} DropLettersOfTag(tag: string, rest: string)
    requires forall k :: 0 <= k < |tag| ==> IsAsciiLetter(tag[k])
    requires rest == [] || !IsAsciiLetter(rest[0])
    ensures DropAsciiLetters(tag + rest) == rest
    decreases |tag|
  {
    if tag != [] {
      assert (tag + rest)[1..] == tag[1..] + rest;
      DropLettersOfTag(tag[1..], rest);
    }
  }

  /**
    `re.sub(r"\n?```$", "", t)`. Python's `$` matches at the end of `t` and
    also just before a final newline; the leftmost match wins, so a newline in
    front of the fence goes with it. At most one match exists.
   */
  function RemoveClosingFence(t: string): (r: string)
    ensures |t| - |r| in {0, 3, 4}
    ensures !IsSuffix(Fence, t) && !IsSuffix(Fence + "\n", t) ==> r == t
    ensures (t == [] || t[|t| - 1] != '\n') ==> r == t[..|r|]
  {
    var body := if t != [] && t[|t| - 1] == '\n' then t[..|t| - 1] else t;
    var tail := t[|body|..];
    FenceBeforeFinalNewline(t, body);
    if IsSuffix("\n" + Fence, body) then body[..|body| - 4] + tail
    else if IsSuffix(Fence, body) then body[..|body| - 3] + tail
    else t
  }

  /** A fence that ends the text before its final newline, if any, is a suffix of the text or of the text minus that newline. */
  lemma FenceBeforeFinalNewline(t: string, body: string)
    requires body == if t != [] && t[|t| - 1] == '\n' then t[..|t| - 1] else t
    ensures IsSuffix("\n" + Fence, body) ==> IsSuffix(Fence, body)
    ensures IsSuffix(Fence, body) ==> IsSuffix(Fence, t) || IsSuffix(Fence + "\n", t)
  {
    if IsSuffix("\n" + Fence, body) {
      assert body[|body| - 3..] == body[|body| - 4..][1..];
    }
    if IsSuffix(Fence, body) && body != t {
      assert t == body + "\n";
      assert t[|t| - 4..] == body[|body| - 3..] + "\n";
    }
  }

  /** When `t` does not end with a newline, `$` is the true end and only a suffix goes. */
  lemma ClosingFenceAtEnd(t: string)
    requires t == [] || t[|t| - 1] != '\n'
    ensures RemoveClosingFence(t)
         == if IsSuffix("\n" + Fence, t) then t[..|t| - 4]
            else if IsSuffix(Fence, t) then t[..|t| - 3]
            else t
  {
  }

  /**
    On stripped text the two substitutions together keep a contiguous piece:
    the opening pattern removes a prefix and, since the text does not end with
    a newline, the closing pattern removes a suffix.
   */
  lemma FenceRemovalIsSlice(t: string)
    requires NoEdgeSpace(t)
    ensures IsSlice(RemoveClosingFence(RemoveOpeningFence(t)), t)
  {
    var unfenced := RemoveOpeningFence(t);
    if unfenced != [] {
      assert unfenced[|unfenced| - 1] == t[|t| - 1];
    }
    ClosingFenceAtEnd(unfenced);
    var closed := RemoveClosingFence(unfenced);
    assert closed == unfenced[..|closed|];
    SliceOfSlice(t, |t| - |unfenced|, |t|);
    SliceOfSlice(unfenced, 0, |closed|);
    IsSliceTransitive(closed, unfenced, t);
  }

  /** Stripping, removing the fences and stripping again leaves a piece of the text. */
  lemma FencedCleanIsSlice(text: string)
    ensures var r := Strip(RemoveClosingFence(RemoveOpeningFence(Strip(text))));
      IsSlice(r, text) && |r| <= |text|
  {
    var t := Strip(text);
    var closed := RemoveClosingFence(RemoveOpeningFence(t));
    FenceRemovalIsSlice(t);
    IsSliceTransitive(closed, t, text);
    var r := Strip(closed);
    IsSliceTransitive(r, closed, text);
    SliceLength(r, text);
  }

  /**
    `clean_json_string`: strip, remove an opening fence with its tag and a
    closing fence when the text starts with three backticks, strip again.
   */
  function CleanJsonString(text: string): (r: string)
    ensures NoEdgeSpace(r)
    ensures IsSlice(r, text)
    ensures |r| <= |text|
  {
    var t := Strip(text);
    if Fence <= t then
      FencedCleanIsSlice(text);
      Strip(RemoveClosingFence(RemoveOpeningFence(t)))
    else
      StripIdempotent(text);
      SliceLength(t, text);
      Strip(t)
  }

  /** `CleanJsonString` as the chain of its three steps. */
  lemma CleanSteps(text: string)
    ensures CleanJsonString(text)
         == if Fence <= Strip(text) then Strip(RemoveClosingFence(RemoveOpeningFence(Strip(text))))
            else Strip(text)
  {
    StripIdempotent(text);
  }

  /** Text that does not start with a fence once stripped is only stripped. */
  lemma CleanUnfenced(text: string)
    requires !(Fence <= Strip(text))
    ensures CleanJsonString(text) == Strip(text)
  {
  }

  /** Text that opens and closes with a backtick has nothing to strip. */
  lemma BacktickEdgesNotStripped(text: string)
    requires text != [] && text[0] == '`' && text[|text| - 1] == '`'
    ensures Strip(text) == text
  {
    StripNoEdgeSpace(text);
  }

  /** The closing pattern removes a final newline-and-fence. */
  lemma ClosingFenceOfBody(body: string)
    ensures RemoveClosingFence(body + "\n" + Fence) == body
  {
    var closing := body + "\n" + Fence;
    ClosingFenceAtEnd(closing);
    assert closing[|closing| - 4..] == "\n" + Fence;
    assert closing[..|closing| - 4] == body;
  }

  /** A fenced block with an ASCII-letter tag gives back its stripped body. */
  lemma CleanFencedBlock(tag: string, body: string)
    requires forall k :: 0 <= k < |tag| ==> IsAsciiLetter(tag[k])
    ensures CleanJsonString(Fence + tag + "\n" + body + "\n" + Fence) == Strip(body)
  {
    var closing := body + "\n" + Fence;
    var rest := "\n" + closing;
    var text := Fence + tag + rest;
    assert Fence + tag + "\n" + body + "\n" + Fence == text;
    assert text[0] == '`' && text[|text| - 1] == '`';
    BacktickEdgesNotStripped(text);
    OpeningFenceWithTag(tag, rest);
    assert rest[1..] == closing;
    ClosingFenceOfBody(body);
    CleanSteps(text);
  }

  /** Without a final fence the closing pattern finds nothing at the true end. */
  lemma NoClosingFence(u: string)
    requires u == [] || u[|u| - 1] != '\n'
    requires !IsSuffix(Fence, u)
    ensures RemoveClosingFence(u) == u
  {
    ClosingFenceAtEnd(u);
  }

  /** The two substitutions on an unclosed fence remove only the opening part. */
  lemma UnclosedFenceSubstitutions(t: string, tag: string, rest: string)
    requires NoEdgeSpace(t) && t == Fence + tag + rest
    requires forall k :: 0 <= k < |tag| ==> IsAsciiLetter(tag[k])
    requires rest == [] || !IsAsciiLetter(rest[0])
    requires !IsSuffix(Fence, rest)
    ensures RemoveClosingFence(RemoveOpeningFence(t))
         == if rest != [] && rest[0] == '\n' then rest[1..] else rest
  {
    OpeningFenceWithTag(tag, rest);
    var unfenced := RemoveOpeningFence(t);
    if unfenced != [] {
      assert unfenced[|unfenced| - 1] == t[|t| - 1];
    }
    NoClosingFence(unfenced);
  }

  /**
    An unclosed fence still loses its opening backticks, its tag and the
    newline after them.
   */
  lemma CleanUnclosedFence(text: string, tag: string, rest: string)
    requires Strip(text) == Fence + tag + rest
    requires forall k :: 0 <= k < |tag| ==> IsAsciiLetter(tag[k])
    requires rest == [] || !IsAsciiLetter(rest[0])
    requires !IsSuffix(Fence, rest)
    ensures CleanJsonString(text) == Strip(if rest != [] && rest[0] == '\n' then rest[1..] else rest)
  {
    var t := Strip(text);
    assert Fence <= t;
    UnclosedFenceSubstitutions(t, tag, rest);
    CleanSteps(text);
  }
}
