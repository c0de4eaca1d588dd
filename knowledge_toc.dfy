/**
 * The knowledge base's table of contents (KnowledgeBase.jsx): the markdown is
 * split into lines, every line matching `/^(#{1,3})\s+(.+)$/` becomes an entry
 * with its level, its text and the slug `text.toLowerCase().replace(/[^a-z0-9]+/g, '-')`,
 * which is also the id the h1/h2/h3 renderers give the heading.
 */
module KnowledgeToc {
  import opened Base
  import opened JsText

  // ---------------------------------------------------------------- lines

  /** The position of the first '\n'. */
  function IndexOfNewline(s: string): (k: nat)
    requires '\n' in s
    ensures k < |s| && s[k] == '\n' && '\n' !in s[..k]
  {
    if s[0] == '\n' then 0
    else
      var k := 1 + IndexOfNewline(s[1..]);
      assert s[..k] == [s[0]] + s[1..][..k - 1];
      k
  }

  /** `content.split('\n')`: the pieces between newlines, an empty one included wherever two are adjacent. */
  function SplitLines(s: string): (lines: seq<string>)
    ensures |lines| >= 1
    ensures forall i :: 0 <= i < |lines| ==> '\n' !in lines[i]
    decreases |s|
  {
    if '\n' in s then
      var k := IndexOfNewline(s);
      [s[..k]] + SplitLines(s[k + 1..])
    else [s]
  }

  /** `lines.join('\n')`, the inverse of the split. */
  function JoinLines(lines: seq<string>): string
    requires |lines| >= 1
  {
    if |lines| == 1 then lines[0] else lines[0] + "\n" + JoinLines(lines[1..])
  }

  lemma {:induction false} JoinSplit(s: string)
    ensures JoinLines(SplitLines(s)) == s
    decreases |s|
  {
    if '\n' in s {
      var k := IndexOfNewline(s);
      var tail := s[k + 1..];
      var lines := SplitLines(s);
      assert lines == [s[..k]] + SplitLines(tail);
      assert lines[1..] == SplitLines(tail);
      assert JoinLines(lines) == s[..k] + "\n" + JoinLines(SplitLines(tail));
      JoinSplit(tail);
      SplitAround(s, k);
    }
  }

  /** The first newline of `a + "\n" + b` is the one after `a` when `a` has none. */
  lemma FirstNewlineAfter(a: string, b: string)
    requires '\n' !in a
    ensures IndexOfNewline(a + "\n" + b) == |a|
  {
    var t := a + "\n" + b;
    var k := IndexOfNewline(t);
    assert t[|a|] == '\n';
    assert forall i :: 0 <= i < |a| ==> t[i] == a[i];
    assert forall i :: 0 <= i < k ==> t[..k][i] == t[i];
  }

  lemma {:induction false} SplitJoin(lines: seq<string>)
    requires |lines| >= 1
    requires forall i :: 0 <= i < |lines| ==> '\n' !in lines[i]
    ensures SplitLines(JoinLines(lines)) == lines
  {
    if |lines| > 1 {
      var rest := JoinLines(lines[1..]);
      var t := lines[0] + "\n" + rest;
      FirstNewlineAfter(lines[0], rest);
      assert t[..|lines[0]|] == lines[0];
      assert t[|lines[0]| + 1..] == rest;
      assert SplitLines(t) == [lines[0]] + SplitLines(rest);
      SplitJoin(lines[1..]);
      assert lines == [lines[0]] + lines[1..];
    } else {
      assert '\n' !in lines[0];
    }
  }

  // ---------------------------------------------------------------- headings

  /** The number of leading '#'. */
  function HashRun(s: string): (n: nat)
    ensures n <= |s|
    ensures forall i :: 0 <= i < n ==> s[i] == '#'
    ensures n < |s| ==> s[n] != '#'
  {
    if s == [] || s[0] != '#' then 0 else 1 + HashRun(s[1..])
  }

  /** The number of leading characters that `\s` matches. */
  function SpaceRun(s: string): (n: nat)
    ensures n <= |s|
    ensures forall i :: 0 <= i < n ==> IsJsSpace(s[i])
    ensures n < |s| ==> !IsJsSpace(s[n])
  {
    if s == [] || !IsJsSpace(s[0]) then 0 else 1 + SpaceRun(s[1..])
  }

  /** A run of '#' is no longer than the leading one. */
  lemma {:induction false} HashRunCovers(s: string, k: nat)
    requires k <= |s| && forall i :: 0 <= i < k ==> s[i] == '#'
    ensures k <= HashRun(s)
  {
    if k > 0 {
      HashRunCovers(s[1..], k - 1);
    }
  }

  /** A run of whitespace is no longer than the leading one. */
  lemma {:induction false} SpaceRunCovers(s: string, k: nat)
    requires k <= |s| && forall i :: 0 <= i < k ==> IsJsSpace(s[i])
    ensures k <= SpaceRun(s)
  {
    if k > 0 {
      SpaceRunCovers(s[1..], k - 1);
    }
  }

  /** Every character is one that `.` matches. */
  predicate NoLineTerminator(s: string) {
    forall i :: 0 <= i < |s| ==> !IsLineTerminator(s[i])
  }

  /**
   * The regular expression `^(#{1,3})\s+(.+)$` (no flags) read as a language:
   * `line` is `k` hashes, then whitespace up to position `j`, then a non-empty
   * rest without line terminators.
   */
  predicate RegexSplit(line: string, k: nat, j: nat) {
    && 1 <= k <= 3 && k < j < |line|
    && (forall i :: 0 <= i < k ==> line[i] == '#')
    && (forall i :: k <= i < j ==> IsJsSpace(line[i]))
    && NoLineTerminator(line[j..])
  }

  /** The two capture groups: the level is the length of the first, `text` the second. */
  datatype Heading = Heading(level: nat, text: string)

  /**
   * `line.match(/^(#{1,3})\s+(.+)$/)`, as the backtracking matcher computes it:
   * the hashes are all the leading ones, `\s+` takes the whole whitespace run
   * and gives back only the last character when nothing follows it.
   * `MatchHeadingSpec` states what it recognises and captures.
   */
  function MatchHeading(line: string): (r: Option<Heading>)
    ensures r.Some? ==> 1 <= r.value.level <= 3 && r.value.text != []
  {
    var n := HashRun(line);
    if n < 1 || n > 3 then None
    else
      var m := n + SpaceRun(line[n..]);
      if m == n then None
      else if m < |line| then
        if NoLineTerminator(line[m..]) then Some(Heading(n, line[m..])) else None
      else if m - n >= 2 && !IsLineTerminator(line[|line| - 1]) then Some(Heading(n, line[|line| - 1..]))
      else None
  }

  /** Every line in the language yields a heading, with that hash count and at least that much whitespace. */
  lemma MatchHeadingComplete(line: string, k: nat, j: nat)
    requires RegexSplit(line, k, j)
    ensures var r := MatchHeading(line);
      r.Some? && k == r.value.level && j <= |line| - |r.value.text|
  {
    var n := HashRun(line);
    HashRunCovers(line, k);
    assert IsJsSpace(line[k]);
    forall i | 0 <= i < j - n ensures IsJsSpace(line[n..][i]) {
      assert line[n..][i] == line[n + i];
    }
    SpaceRunCovers(line[n..], j - n);
    var m := n + SpaceRun(line[n..]);
    if m < |line| {
      forall i | 0 <= i < |line[m..]| ensures !IsLineTerminator(line[m..][i]) {
        assert line[m..][i] == line[j..][i + m - j];
      }
    } else {
      assert line[|line| - 1] == line[j..][|line| - 1 - j];
    }
  }

  /** A heading is only taken from a line in the language, and its text is the line's tail. */
  lemma MatchHeadingSound(line: string)
    ensures var r := MatchHeading(line);
      r.Some? ==>
        && |r.value.text| < |line|
        && r.value.text == line[|line| - |r.value.text|..]
        && RegexSplit(line, r.value.level, |line| - |r.value.text|)
  {
    var r := MatchHeading(line);
    if r.Some? {
      var n := HashRun(line);
      var j := |line| - |r.value.text|;
      forall i | n <= i < j ensures IsJsSpace(line[i]) {
        assert line[i] == line[n..][i - n];
      }
      assert RegexSplit(line, n, j);
    }
  }

  /**
   * A line yields a heading exactly when it is in the regular expression's
   * language; the level is then the unique hash count and the text is the rest
   * after the longest whitespace run the match allows.
   */
  lemma MatchHeadingSpec(line: string)
    ensures var r := MatchHeading(line);
      && (r.Some? <==> exists k: nat, j: nat :: RegexSplit(line, k, j))
      && (r.Some? ==>
            && |r.value.text| < |line|
            && r.value.text == line[|line| - |r.value.text|..]
            && RegexSplit(line, r.value.level, |line| - |r.value.text|)
            && forall k: nat, j: nat :: RegexSplit(line, k, j) ==>
                 k == r.value.level && j <= |line| - |r.value.text|)
  {
    MatchHeadingSound(line);
    forall k: nat, j: nat | RegexSplit(line, k, j)
      ensures MatchHeading(line).Some? && k == MatchHeading(line).value.level
      ensures j <= |line| - |MatchHeading(line).value.text|
    {
      MatchHeadingComplete(line, k, j);
    }
  }

  /** A line with four or more leading '#', or none, or no whitespace after them, yields nothing. */
  lemma NoHeadingWithoutSpace(line: string)
    requires HashRun(line) < 1 || HashRun(line) > 3 || HashRun(line) == |line| || !IsJsSpace(line[HashRun(line)])
    ensures MatchHeading(line).None?
  {
  }

  // ---------------------------------------------------------------- slugs

  predicate IsSlugChar(c: char) {
    'a' <= c <= 'z' || '0' <= c <= '9'
  }

  /**
   * The lower case of one character, exact for every character whose lower
   * case contains a letter or digit of [a-z0-9]: 'A'..'Z', KELVIN SIGN and
   * LATIN CAPITAL LETTER I WITH DOT ABOVE (which lower-cases to two characters).
   * Other characters are left as they are; neither they nor their lower case are in [a-z0-9].
   */
  function LowerChar(c: char): string {
    if 'A' <= c <= 'Z' then [(c as int + 32) as char]
    else if c == '\U{212A}' then "k"
    else if c == '\U{0130}' then "i\U{0307}"
    else [c]
  }

  /** `String.prototype.toLowerCase`, character by character. */
  function ToLowerCase(s: string): string {
    if s == [] then [] else LowerChar(s[0]) + ToLowerCase(s[1..])
  }

  /** The number of leading characters outside [a-z0-9]. */
  function NonSlugRun(s: string): (n: nat)
    ensures n <= |s|
    ensures forall i :: 0 <= i < n ==> !IsSlugChar(s[i])
    ensures n < |s| ==> IsSlugChar(s[n])
  {
    if s == [] || IsSlugChar(s[0]) then 0 else 1 + NonSlugRun(s[1..])
  }

  /** `s.replace(/[^a-z0-9]+/g, '-')`: each maximal run outside [a-z0-9] becomes one '-'. */
  function DashRuns(s: string): string
    decreases |s|
  {
    if s == [] then []
    else if IsSlugChar(s[0]) then [s[0]] + DashRuns(s[1..])
    else "-" + DashRuns(s[NonSlugRun(s)..])
  }

  /** The id of a heading, in the table of contents and on the rendered h1, h2 and h3 alike. */
  function Slug(text: string): string {
    DashRuns(ToLowerCase(text))
  }

  /** Only [a-z0-9] and '-', and never two '-' in a row. */
  predicate IsSlug(r: string) {
    && (forall i :: 0 <= i < |r| ==> IsSlugChar(r[i]) || r[i] == '-')
    && (forall i :: 0 <= i < |r| - 1 ==> r[i] != '-' || r[i + 1] != '-')
  }

  /** The letters and digits of a string, in order. */
  function SlugChars(s: string): string {
    if s == [] then [] else (if IsSlugChar(s[0]) then [s[0]] else []) + SlugChars(s[1..])
  }

  lemma {:induction false} DashRunsIsSlug(s: string)
    ensures IsSlug(DashRuns(s))
    ensures DashRuns(s) == [] <==> s == []
    ensures DashRuns(s) != [] ==> (DashRuns(s)[0] == '-' <==> !IsSlugChar(s[0]))
    decreases |s|
  {
    if s != [] {
      var r := DashRuns(s);
      if IsSlugChar(s[0]) {
        DashRunsIsSlug(s[1..]);
        assert forall i :: 1 <= i < |r| ==> r[i] == DashRuns(s[1..])[i - 1];
      } else {
        var k := NonSlugRun(s);
        DashRunsIsSlug(s[k..]);
        assert forall i :: 1 <= i < |r| ==> r[i] == DashRuns(s[k..])[i - 1];
      }
    }
  }

  /** Characters outside [a-z0-9] contribute nothing to `SlugChars`. */
  lemma {:induction false} SkipNonSlug(s: string, k: nat)
    requires k <= |s|
    requires forall i :: 0 <= i < k ==> !IsSlugChar(s[i])
    ensures SlugChars(s) == SlugChars(s[k..])
  {
    if k > 0 {
      assert !IsSlugChar(s[0]);
      SkipNonSlug(s[1..], k - 1);
      assert s[1..][k - 1..] == s[k..];
    }
  }

  /** Replacing the runs keeps every letter and digit, in order. */
  lemma {:induction false} DashRunsKeepsSlugChars(s: string)
    ensures SlugChars(DashRuns(s)) == SlugChars(s)
    decreases |s|
  {
    if s != [] {
      if IsSlugChar(s[0]) {
        DashRunsKeepsSlugChars(s[1..]);
        assert ([s[0]] + DashRuns(s[1..]))[1..] == DashRuns(s[1..]);
      } else {
        var k := NonSlugRun(s);
        DashRunsKeepsSlugChars(s[k..]);
        SkipNonSlug(s, k);
        assert ("-" + DashRuns(s[k..]))[1..] == DashRuns(s[k..]);
      }
    }
  }

  /** What the slug of any text looks like. */
  lemma SlugSpec(text: string)
    ensures IsSlug(Slug(text))
    ensures SlugChars(Slug(text)) == SlugChars(ToLowerCase(text))
    ensures Slug(text) == [] <==> text == []
  {
    DashRunsIsSlug(ToLowerCase(text));
    DashRunsKeepsSlugChars(ToLowerCase(text));
    if text != [] {
      assert ToLowerCase(text) != [];
    }
  }

  lemma {:induction false} DashRunsOfSlug(r: string)
    requires IsSlug(r)
    ensures DashRuns(r) == r
    decreases |r|
  {
    if r != [] {
      assert IsSlug(r[1..]) by {
        assert forall i :: 0 <= i < |r| - 1 ==> r[1..][i] == r[i + 1];
      }
      DashRunsOfSlug(r[1..]);
      if !IsSlugChar(r[0]) {
        assert NonSlugRun(r) == 1 by {
          if |r| > 1 {
            assert r[0] == '-' && r[1] != '-';
          }
        }
      }
      assert r == [r[0]] + r[1..];
    }
  }

  lemma {:induction false} LowerOfSlug(r: string)
    requires IsSlug(r)
    ensures ToLowerCase(r) == r
    decreases |r|
  {
    if r != [] {
      assert IsSlug(r[1..]) by {
        assert forall i :: 0 <= i < |r| - 1 ==> r[1..][i] == r[i + 1];
      }
      LowerOfSlug(r[1..]);
      assert LowerChar(r[0]) == [r[0]];
      assert r == [r[0]] + r[1..];
    }
  }

  /** A slug is its own slug, so slugging twice is slugging once. */
  lemma SlugIdempotent(text: string)
    ensures Slug(Slug(text)) == Slug(text)
  {
    var r := Slug(text);
    SlugSpec(text);
    LowerOfSlug(r);
    DashRunsOfSlug(r);
  }

  // ---------------------------------------------------------------- table of contents

  /** The object pushed to `headings`: `{ level, text, id }`. */
  datatype TocEntry = TocEntry(level: nat, text: string, id: string)

  function EntryOf(h: Heading): TocEntry {
    TocEntry(h.level, h.text, Slug(h.text))
  }

  /** The entries for the given lines, in line order (`ExtractToc` computes it). */
  function TocOf(lines: seq<string>): seq<TocEntry> {
    if lines == [] then []
    else
      var init := TocOf(lines[..|lines| - 1]);
      match MatchHeading(lines[|lines| - 1])
      case Some(h) => init + [EntryOf(h)]
      case None => init
  }

  /** The positions of the lines that match, in increasing order: the reference `TocOf` is checked against. */
  function HeadingLines(lines: seq<string>): seq<nat> {
    if lines == [] then []
    else
      var init := HeadingLines(lines[..|lines| - 1]);
      if MatchHeading(lines[|lines| - 1]).Some? then init + [|lines| - 1] else init
  }

  /** Every listed position holds a matching line, and the positions increase. */
  lemma {:induction false} HeadingLinesSound(lines: seq<string>)
    ensures forall k :: 0 <= k < |HeadingLines(lines)| ==> HeadingLines(lines)[k] < |lines|
    ensures forall k :: 0 <= k < |HeadingLines(lines)| ==> MatchHeading(lines[HeadingLines(lines)[k]]).Some?
    ensures forall k, l :: 0 <= k < l < |HeadingLines(lines)| ==> HeadingLines(lines)[k] < HeadingLines(lines)[l]
  {
    if lines != [] {
      var init := lines[..|lines| - 1];
      HeadingLinesSound(init);
      var at0 := HeadingLines(init);
      forall k | 0 <= k < |at0| ensures lines[at0[k]] == init[at0[k]] {
      }
    }
  }

  /** Every matching line is listed. */
  lemma {:induction false} HeadingLinesComplete(lines: seq<string>)
    ensures forall i :: 0 <= i < |lines| && MatchHeading(lines[i]).Some? ==> i in HeadingLines(lines)
  {
    if lines != [] {
      var init := lines[..|lines| - 1];
      HeadingLinesComplete(init);
      forall i | 0 <= i < |init| ensures init[i] == lines[i] {
      }
    }
  }

  /** The positions are those of the matching lines, each once, in increasing order. */
  lemma HeadingLinesSpec(lines: seq<string>)
    ensures var at := HeadingLines(lines);
      && (forall k :: 0 <= k < |at| ==> at[k] < |lines| && MatchHeading(lines[at[k]]).Some?)
      && (forall k, l :: 0 <= k < l < |at| ==> at[k] < at[l])
      && (forall i :: 0 <= i < |lines| && MatchHeading(lines[i]).Some? ==> i in at)
  {
    HeadingLinesSound(lines);
    HeadingLinesComplete(lines);
  }

  /**
   * The table of contents has exactly one entry per matching line, in line
   * order (`HeadingLinesSpec`); each carries the line's level, its text and the
   * slug of that text.
   */
  lemma {:induction false} TocOfSpec(lines: seq<string>)
    ensures var toc, at := TocOf(lines), HeadingLines(lines);
      && |toc| == |at|
      && forall k :: 0 <= k < |at| ==>
           at[k] < |lines| && MatchHeading(lines[at[k]]).Some?
           && toc[k] == EntryOf(MatchHeading(lines[at[k]]).value)
  {
    if lines != [] {
      var init := lines[..|lines| - 1];
      TocOfSpec(init);
      HeadingLinesSpec(lines);
      var toc, at := TocOf(init), HeadingLines(init);
      forall k | 0 <= k < |at| ensures lines[at[k]] == init[at[k]] {
      }
    }
  }

  /** Every entry has a level in 1..3, a non-empty text and a slug id. */
  lemma TocEntriesWellFormed(lines: seq<string>)
    ensures forall e :: e in TocOf(lines) ==> 1 <= e.level <= 3 && e.text != [] && e.id == Slug(e.text) && IsSlug(e.id)
  {
    TocOfSpec(lines);
    forall e | e in TocOf(lines) ensures 1 <= e.level <= 3 && e.text != [] && e.id == Slug(e.text) && IsSlug(e.id) {
      SlugSpec(e.text);
    }
  }

  // ---------------------------------------------------------------- rendered headings and scrolling

  /** The `id` the `h1`, `h2` and `h3` renderers give an element whose children read `children`. */
  function RenderedHeadingId(children: string): string {
    Slug(children)
  }

  /**
   * The ids of the rendered heading elements in document order, one per
   * matching line, taking every line the table-of-contents pattern matches to
   * render as an h1-h3 heading whose children read as the heading text of its
   * line.
   */
  function RenderedIds(lines: seq<string>): seq<string> {
    if lines == [] then []
    else
      var init := RenderedIds(lines[..|lines| - 1]);
      match MatchHeading(lines[|lines| - 1])
      case Some(h) => init + [RenderedHeadingId(h.text)]
      case None => init
  }

  /** The table of contents and the rendered headings agree entry by entry on the id. */
  lemma {:induction false} TocIdsMatchRenderedIds(lines: seq<string>)
    ensures |RenderedIds(lines)| == |TocOf(lines)|
    ensures forall k :: 0 <= k < |TocOf(lines)| ==> TocOf(lines)[k].id == RenderedIds(lines)[k]
  {
    if lines != [] {
      TocIdsMatchRenderedIds(lines[..|lines| - 1]);
    }
  }

  /** `document.getElementById`: the first element, in document order, carrying `id`. */
  function FirstWithId(ids: seq<string>, id: string): (r: Option<nat>)
    ensures r.Some? ==> r.value < |ids| && ids[r.value] == id && forall i :: 0 <= i < r.value ==> ids[i] != id
    ensures r.None? <==> id !in ids
  {
    if ids == [] then None
    else if ids[0] == id then Some(0)
    else match FirstWithId(ids[1..], id)
      case Some(i) => Some(i + 1)
      case None => None
  }

  /**
   * When every matching line renders as a heading (`RenderedIds`),
   * `scrollToSection` from a table-of-contents entry always finds an element:
   * the entry's own heading, or an earlier heading with the same id.
   */
  lemma TocEntryScrollTarget(lines: seq<string>, k: nat)
    requires k < |TocOf(lines)|
    ensures var target := FirstWithId(RenderedIds(lines), TocOf(lines)[k].id);
      && target.Some? && target.value <= k
      && ((forall l :: 0 <= l < k ==> TocOf(lines)[l].id != TocOf(lines)[k].id) ==> target.value == k)
  {
    TocIdsMatchRenderedIds(lines);
    var ids := RenderedIds(lines);
    assert ids[k] == TocOf(lines)[k].id;
  }

  /** The `forEach` over the lines of the knowledge base, pushing one entry per matching line. */
  method ExtractToc(content: string) returns (toc: seq<TocEntry>)
    ensures toc == TocOf(SplitLines(content))
  {
    var lines := SplitLines(content);
    var headings: seq<TocEntry> := [];
    var i := 0;
    while i < |lines|
      invariant 0 <= i <= |lines|
      invariant headings == TocOf(lines[..i])
    {
      assert lines[..i + 1][..i] == lines[..i];
      var match_ := MatchHeading(lines[i]);
      if match_.Some? {
        headings := headings + [EntryOf(match_.value)];
      }
      i := i + 1;
    }
    assert lines[..|lines|] == lines;
    toc := headings;
  }
}
