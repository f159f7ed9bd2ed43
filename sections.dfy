/** `parseMarkdownSections` and the choice of layout of ai-analysis-result.tsx.
    The answer of the language model is cut into an introductory summary and
    four optional sections by regular expressions; the component shows the
    sections it found, or the whole answer when it found none. */
module Sections {
  import opened Wrappers
  import opened JsText
  import Markdown

  // ---------------------------------------------------------------------
  // Summary: markdown.match(/^([^#]+)(?=#|$)/), trimmed

  /** The length of the longest prefix without '#'. */
  function HashFree(s: string): (k: nat)
    ensures k <= |s|
    ensures forall i :: 0 <= i < k ==> s[i] != '#'
    ensures k < |s| ==> s[k] == '#'
  {
    if s == [] || s[0] == '#' then 0 else 1 + HashFree(s[1..])
  }

  /** `[^#]+` is greedy and the look-ahead accepts a '#' or the end, so the
      group is the whole text before the first '#'; it must be non-empty and
      must not trim to nothing. */
  function Summary(s: string): (r: Option<string>)
    ensures r.Some? ==> r.value != "" && Markdown.Lacks(r.value, '#')
    ensures r.Some? ==> !IsSpace(r.value[0]) && !IsSpace(r.value[|r.value| - 1])
  {
    var k := HashFree(s);
    var t := Trim(s[..k]);
    if k > 0 && t != "" then
      TrimLacks(s[..k], '#');
      Some(t)
    else None
  }

  /** Trimming adds no character. */
  lemma TrimLacks(s: string, c: char)
    requires Markdown.Lacks(s, c)
    ensures Markdown.Lacks(Trim(s), c)
  {
    var a := LeadingSpace(s);
    forall i | 0 <= i < |Trim(s)| ensures Trim(s)[i] != c {
      assert Trim(s)[i] == s[a + i];
    }
  }

  /** Text without '#' is its own summary, trimmed. */
  lemma SummaryOfPlainText(s: string)
    requires Markdown.Lacks(s, '#')
    ensures Summary(s) == if Trim(s) == "" then None else Some(Trim(s))
  {
    HashFreeAll(s);
    assert s[..|s|] == s;
    if s == [] {
      assert AllSpace(s);
    }
  }

  /** Nothing after the first '#' reaches the summary. */
  lemma {:induction false} SummaryStopsAtHash(a: string, b: string)
    requires Markdown.Lacks(a, '#') && b != [] && b[0] == '#'
    ensures Summary(a + b) == Summary(a)
  {
    HashFreePrefix(a, b);
    assert (a + b)[..|a|] == a;
    assert a[..|a|] == a;
    HashFreeAll(a);
  }

  lemma {:induction false} HashFreePrefix(a: string, b: string)
    requires Markdown.Lacks(a, '#') && b != [] && b[0] == '#'
    ensures HashFree(a + b) == |a|
  {
    if a == [] {
      assert a + b == b;
    } else {
      assert (a + b)[1..] == a[1..] + b;
      HashFreePrefix(a[1..], b);
    }
  }

  lemma {:induction false} HashFreeAll(a: string)
    requires Markdown.Lacks(a, '#')
    ensures HashFree(a) == |a|
  {
    if a != [] {
      HashFreeAll(a[1..]);
    }
  }

  // ---------------------------------------------------------------------
  // Sections: /(?:##?\s*T1|##?\s*T2|...)[^\n]*\n([\s\S]*?)(?=##|$)/i

  datatype Field = Technical | Fundamental | Recommendation | Risks

  /** The titles each section regex accepts, in the order of its alternatives. */
  function Synonyms(f: Field): seq<string> {
    match f
    case Technical => ["技术分析", "趋势分析", "Technical Analysis"]
    case Fundamental => ["基本面分析", "基本面", "成交量分析", "Fundamental Analysis"]
    case Recommendation => ["投资建议", "建议", "操作建议", "Recommendation"]
    case Risks => ["风险提示", "风险", "风险分析", "Risks"]
  }

  /** `p` occurs at `m` up to the case folding of the `i` flag. */
  predicate AtIgnoringCase(s: string, m: nat, p: string) {
    m + |p| <= |s| && forall k :: 0 <= k < |p| ==> FoldCase(s[m + k]) == FoldCase(p[k])
  }

  /** Some title of `titles` starts at `m`. */
  predicate TitleAt(s: string, m: nat, titles: seq<string>) {
    exists k :: 0 <= k < |titles| && AtIgnoringCase(s, m, titles[k])
  }

  /** Titles that start with an ASCII letter or a CJK ideograph and hold
      no '\n', as all the titles of the four regexes do. */
  predicate WellTitled(titles: seq<string>) {
    forall k :: 0 <= k < |titles| ==>
      titles[k] != [] && Markdown.Lacks(titles[k], '\n') && StartsWithWord(titles[k])
  }

  predicate StartsWithWord(t: string) {
    t != [] && (('A' <= t[0] <= 'Z') || ('a' <= t[0] <= 'z') || ('一' <= t[0] <= '鿿'))
  }

  /** Where the title of a heading that starts at `i` begins: after one '#',
      a second one when present (`#?` is greedy), and the longest run of
      `\s`. No title starts with '#' or with a space, so giving back a '#'
      or a space never lets a match through that the greedy choice misses. */
  function TitleStart(s: string, i: nat): (m: nat)
    requires i < |s|
    ensures i < m <= |s|
  {
    var j := if i + 1 < |s| && s[i + 1] == '#' then i + 2 else i + 1;
    j + LeadingSpace(s[j..])
  }

  /** The first '\n' at or after `m`. */
  function NewlineFrom(s: string, m: nat): (r: Option<nat>)
    requires m <= |s|
    ensures r.Some? ==> m <= r.value < |s| && s[r.value] == '\n'
    ensures r.Some? ==> forall j :: m <= j < r.value ==> s[j] != '\n'
    ensures r.None? ==> forall j :: m <= j < |s| ==> s[j] != '\n'
    decreases |s| - m
  {
    if m == |s| then None else if s[m] == '\n' then Some(m) else NewlineFrom(s, m + 1)
  }

  /** `[^\n]*\n` after a title takes the first '\n' after it; a title holds
      no '\n', so that is the first '\n' after the title's start, whichever
      alternative matched. */
  lemma {:induction false} NewlineSkipsTitle(s: string, m: nat, t: string)
    requires AtIgnoringCase(s, m, t) && Markdown.Lacks(t, '\n')
    ensures NewlineFrom(s, m + |t|) == NewlineFrom(s, m)
    decreases |t|
  {
    if t != [] {
      assert FoldCase(s[m]) == FoldCase(t[0]);
      assert s[m] != '\n';
      var t' := t[1..];
      assert AtIgnoringCase(s, m + 1, t') by {
        forall k | 0 <= k < |t'| ensures FoldCase(s[m + 1 + k]) == FoldCase(t'[k]) {
          assert FoldCase(s[m + (k + 1)]) == FoldCase(t[k + 1]);
        }
      }
      NewlineSkipsTitle(s, m + 1, t');
    }
  }

  /** The regex matches at `i`. */
  predicate IsHeading(s: string, i: nat, titles: seq<string>): (h: bool)
    ensures h ==> i + 1 < |s| && s[i] == '#'
  {
    i < |s| && s[i] == '#' && TitleAt(s, TitleStart(s, i), titles) && NewlineFrom(s, TitleStart(s, i)).Some?
  }

  /** Where the body of a heading begins: after the '\n' that ends its line. */
  function BodyStart(s: string, i: nat, titles: seq<string>): (b: nat)
    requires IsHeading(s, i, titles)
    ensures i < b <= |s|
  {
    NewlineFrom(s, TitleStart(s, i)).value + 1
  }

  /** `match` reports the leftmost position where the regex matches. */
  function FirstHeading(s: string, i: nat, titles: seq<string>): (r: Option<nat>)
    requires i <= |s|
    ensures r.Some? ==> i <= r.value && IsHeading(s, r.value, titles)
    decreases |s| - i
  {
    if i == |s| then None
    else if IsHeading(s, i, titles) then Some(i)
    else FirstHeading(s, i + 1, titles)
  }

  /** No heading comes before the reported one, and none at all is missed
      when none is reported. */
  lemma {:induction false} FirstHeadingIsLeftmost(s: string, i: nat, titles: seq<string>)
    requires i <= |s|
    ensures FirstHeading(s, i, titles).Some? ==>
              forall j :: i <= j < FirstHeading(s, i, titles).value ==> !IsHeading(s, j, titles)
    ensures FirstHeading(s, i, titles).None? ==> forall j :: i <= j < |s| ==> !IsHeading(s, j, titles)
    decreases |s| - i
  {
    if i < |s| && !IsHeading(s, i, titles) {
      assert FirstHeading(s, i, titles) == FirstHeading(s, i + 1, titles);
      FirstHeadingIsLeftmost(s, i + 1, titles);
      forall j | i <= j < i + 1 ensures !IsHeading(s, j, titles) {
        assert j == i;
      }
    }
  }

  /** The lazy body stops at the first "##" or at the end of the text. */
  function BodyEnd(s: string, b: nat): (e: nat)
    requires b <= |s|
    ensures b <= e <= |s|
    ensures forall j :: b <= j < e ==> !At(s, j, "##")
    ensures e < |s| ==> At(s, e, "##")
    decreases |s| - b
  {
    if b == |s| || At(s, b, "##") then b else BodyEnd(s, b + 1)
  }

  /** The trimmed body of the leftmost heading, absent when there is no
      heading or that body trims to nothing (a later heading of the same
      kind is then not consulted). */
  function Extract(s: string, titles: seq<string>): (r: Option<string>)
    ensures r.Some? ==> r.value != "" && !IsSpace(r.value[0]) && !IsSpace(r.value[|r.value| - 1])
    ensures r.Some? ==> exists i :: 0 <= i < |s| && IsHeading(s, i, titles)
  {
    match FirstHeading(s, 0, titles)
    case None => None
    case Some(i) =>
      var b := BodyStart(s, i, titles);
      var body := Trim(s[b..BodyEnd(s, b)]);
      if body == "" then None else Some(body)
  }

  function Section(s: string, f: Field): (r: Option<string>)
    ensures r.Some? ==> r.value != "" && !IsSpace(r.value[0]) && !IsSpace(r.value[|r.value| - 1])
    ensures r.Some? ==> exists i :: 0 <= i < |s| && IsHeading(s, i, Synonyms(f))
  {
    Extract(s, Synonyms(f))
  }

  datatype Parsed = Parsed(
    summary: Option<string>,
    technicalAnalysis: Option<string>,
    fundamentalAnalysis: Option<string>,
    recommendation: Option<string>,
    risks: Option<string>)

  /** A part that is found is never empty and never starts or ends with
      whitespace. */
  predicate Clean(part: Option<string>) {
    part.Some? ==> part.value != "" && !IsSpace(part.value[0]) && !IsSpace(part.value[|part.value| - 1])
  }

  function Parse(markdown: string): (p: Parsed)
    ensures Clean(p.summary) && Clean(p.technicalAnalysis) && Clean(p.fundamentalAnalysis)
    ensures Clean(p.recommendation) && Clean(p.risks)
    ensures p.summary.Some? ==> Markdown.Lacks(p.summary.value, '#')
  {
    Parsed(Summary(markdown), Section(markdown, Technical), Section(markdown, Fundamental),
           Section(markdown, Recommendation), Section(markdown, Risks))
  }

  /** A line break is part of every heading match: one-line text has no
      sections. */
  lemma OneLineHasNoSection(s: string, titles: seq<string>)
    requires Markdown.Lacks(s, '\n')
    ensures Extract(s, titles) == None
  {
    forall j | 0 <= j < |s| ensures !IsHeading(s, j, titles) {
      if s[j] == '#' {
        assert NewlineFrom(s, TitleStart(s, j)).None?;
      }
    }
  }

  /** Text without '#' has no sections. */
  lemma HashFreeHasNoSection(s: string, titles: seq<string>)
    requires Markdown.Lacks(s, '#')
    ensures Extract(s, titles) == None
  {
    forall j | 0 <= j < |s| ensures !IsHeading(s, j, titles) {
      assert s[j] != '#';
    }
  }

  /** A character that folds to the first letter of a title is neither a
      space nor '#' nor '\n'. */
  lemma WordStartIsPlain(t: string, c: char)
    requires StartsWithWord(t) && FoldCase(c) == FoldCase(t[0])
    ensures !IsSpace(c) && c != '#' && c != '\n'
  {
  }

  lemma TechnicalWellTitled()
    ensures WellTitled(Synonyms(Technical))
  {
    var ts := Synonyms(Technical);
    assert ts[0][0] == '技' && ts[1][0] == '趋' && ts[2][0] == 'T';
  }

  lemma FundamentalWellTitled()
    ensures WellTitled(Synonyms(Fundamental))
  {
    var ts := Synonyms(Fundamental);
    assert ts[0][0] == '基' && ts[1][0] == '基' && ts[2][0] == '成' && ts[3][0] == 'F';
  }

  lemma RecommendationWellTitled()
    ensures WellTitled(Synonyms(Recommendation))
  {
    var ts := Synonyms(Recommendation);
    assert ts[0][0] == '投' && ts[1][0] == '建' && ts[2][0] == '操' && ts[3][0] == 'R';
  }

  lemma RisksWellTitled()
    ensures WellTitled(Synonyms(Risks))
  {
    var ts := Synonyms(Risks);
    assert ts[0][0] == '风' && ts[1][0] == '风' && ts[2][0] == '风' && ts[3][0] == 'R';
  }

  lemma SynonymsWellTitled(f: Field)
    ensures WellTitled(Synonyms(f))
  {
    match f
    case Technical => TechnicalWellTitled();
    case Fundamental => FundamentalWellTitled();
    case Recommendation => RecommendationWellTitled();
    case Risks => RisksWellTitled();
  }

  /** A heading at the very start of the text: one or two '#', any run of
      spaces, a line that starts with one of the titles in any letter case,
      a '\n', and a body that runs up to the end or to the next "##" (a
      single '#', as in a '# note' line, does not end it). The section is
      the trimmed body. Whatever follows, later headings of the same kind
      included, plays no part, even when the body trims to nothing. */
  lemma ExtractLeadingHeading(h: string, sp: string, line: string, body: string, tail: string, titles: seq<string>)
    requires WellTitled(titles)
    requires h == "#" || h == "##"
    requires AllSpace(sp) && TitleAt(line, 0, titles) && Markdown.Lacks(line, '\n')
    requires NoDoubleHash(body) && EndsBefore(body, tail)
    ensures Extract(h + sp + line + "\n" + body + tail, titles) == if Trim(body) == "" then None else Some(Trim(body))
  {
    var pre := h + sp + line + "\n";
    var s := pre + (body + tail);
    assert s == h + sp + line + "\n" + body + tail;
    HeadingAtStart(pre, body + tail, h, sp, line, titles);
    BodyRunsToTail(s, |pre|, body, tail);
    assert s[|pre|..|pre| + |body|] == body;
  }

  /** The heading line of `ExtractLeadingHeading` matches at position 0,
      and its body starts right after it. */
  lemma HeadingAtStart(pre: string, rest: string, h: string, sp: string, line: string, titles: seq<string>)
    requires WellTitled(titles)
    requires h == "#" || h == "##"
    requires AllSpace(sp) && TitleAt(line, 0, titles) && Markdown.Lacks(line, '\n')
    requires pre == h + sp + line + "\n"
    ensures FirstHeading(pre + rest, 0, titles) == Some(0)
    ensures BodyStart(pre + rest, 0, titles) == |pre|
  {
    var s := pre + rest;
    var m := |h| + |sp|;
    var n := m + |line|;
    var k :| 0 <= k < |titles| && AtIgnoringCase(line, 0, titles[k]);
    WordStartIsPlain(titles[k], line[0]);
    assert s[m] == line[0];
    assert s[..m] == h + sp;
    TitleStartAfterSpaces(s, h, sp);
    assert s[m..m + |line|] == line;
    TitleAtShift(s, m, line, titles, k);
    assert s[n] == '\n';
    NewlineAfterLine(s, m, line);
    assert IsHeading(s, 0, titles);
  }

  /** The spaces after the '#' marks are skipped up to the title. */
  lemma TitleStartAfterSpaces(s: string, h: string, sp: string)
    requires h == "#" || h == "##"
    requires AllSpace(sp) && |h| + |sp| < |s| && s[..|h| + |sp|] == h + sp
    requires !IsSpace(s[|h| + |sp|]) && s[|h| + |sp|] != '#'
    ensures TitleStart(s, 0) == |h| + |sp|
  {
    var j := |h|;
    assert s[0] == h[0];
    if |h| == 2 {
      assert s[1] == h[1];
    } else if sp != [] {
      assert s[1] == sp[0];
    }
    assert j == if 1 < |s| && s[1] == '#' then 2 else 1;
    assert s[j..][..|sp|] == sp;
    LeadingSpaceRun(s[j..], sp);
  }

  /** The run of spaces before a character that is not a space. */
  lemma {:induction false} LeadingSpaceRun(t: string, sp: string)
    requires AllSpace(sp) && |sp| < |t| && t[..|sp|] == sp && !IsSpace(t[|sp|])
    ensures LeadingSpace(t) == |sp|
    decreases |sp|
  {
    if sp != [] {
      assert t[0] == sp[0];
      assert t[1..][..|sp| - 1] == sp[1..];
      LeadingSpaceRun(t[1..], sp[1..]);
    }
  }

  /** A title at the start of `line` is a title of `s` where `line` sits. */
  lemma TitleAtShift(s: string, m: nat, line: string, titles: seq<string>, k: nat)
    requires m + |line| <= |s| && s[m..m + |line|] == line
    requires k < |titles| && AtIgnoringCase(line, 0, titles[k])
    ensures TitleAt(s, m, titles)
  {
    var t := titles[k];
    forall i | 0 <= i < |t| ensures FoldCase(s[m + i]) == FoldCase(t[i]) {
      assert s[m + i] == line[i];
    }
    assert AtIgnoringCase(s, m, t);
  }

  /** The first '\n' after the start of a one-line title line is the one
      that ends it. */
  lemma {:induction false} NewlineAfterLine(s: string, m: nat, line: string)
    requires m + |line| < |s| && s[m..m + |line|] == line && s[m + |line|] == '\n'
    requires Markdown.Lacks(line, '\n')
    ensures NewlineFrom(s, m) == Some(m + |line|)
    decreases |line|
  {
    if line != [] {
      assert s[m] == line[0];
      assert s[m + 1..m + 1 + |line[1..]|] == line[1..];
      NewlineAfterLine(s, m + 1, line[1..]);
    }
  }

  /** No "##" occurs in `s`; a single '#' may. */
  predicate NoDoubleHash(s: string) {
    forall j :: 0 <= j < |s| ==> !At(s, j, "##")
  }

  /** May `body` be followed by `tail` without a "##" across the seam? A
      body that ends in '#' may not precede a "##". */
  predicate EndsBefore(body: string, tail: string) {
    (tail == [] || At(tail, 0, "##")) && (tail == [] || body == [] || body[|body| - 1] != '#')
  }

  /** A non-empty body without "##", followed by a tail it may precede,
      has no "##" at its first position. */
  lemma NoDoubleHashAtBody(s: string, b: nat, body: string, tail: string)
    requires b + |body| + |tail| == |s| && s[b..] == body + tail && body != []
    requires NoDoubleHash(body) && EndsBefore(body, tail)
    ensures !At(s, b, "##")
  {
    assert s[b] == body[0];
    if b + 2 <= |s| && |body| >= 2 {
      assert s[b..b + 2] == body[0..2];
      assert !At(body, 0, "##");
    } else if b + 2 <= |s| {
      assert s[b + 1] == tail[0];
    }
  }

  lemma NoDoubleHashRest(body: string)
    requires body != [] && NoDoubleHash(body)
    ensures NoDoubleHash(body[1..])
  {
    var body' := body[1..];
    forall j | 0 <= j < |body'| ensures !At(body', j, "##") {
      assert !At(body, j + 1, "##");
      if j + 2 <= |body'| {
        assert body'[j..j + 2] == body[j + 1..j + 3];
      }
    }
  }

  /** A body without "##" ends where the tail begins. */
  lemma {:induction false} BodyRunsToTail(s: string, b: nat, body: string, tail: string)
    requires b + |body| + |tail| == |s| && s[b..] == body + tail
    requires NoDoubleHash(body) && EndsBefore(body, tail)
    ensures BodyEnd(s, b) == b + |body|
    decreases |body|
  {
    if body == [] {
      if tail != [] {
        assert s[b..b + 2] == tail[..2];
      }
    } else {
      NoDoubleHashAtBody(s, b, body, tail);
      var body' := body[1..];
      assert s[b + 1..] == body' + tail;
      NoDoubleHashRest(body);
      BodyRunsToTail(s, b + 1, body', tail);
    }
  }

  /** The same, for the section regexes of the component. */
  lemma SectionOfLeadingHeading(h: string, sp: string, line: string, body: string, tail: string, f: Field)
    requires h == "#" || h == "##"
    requires AllSpace(sp) && TitleAt(line, 0, Synonyms(f)) && Markdown.Lacks(line, '\n')
    requires NoDoubleHash(body) && EndsBefore(body, tail)
    ensures Section(h + sp + line + "\n" + body + tail, f) == if Trim(body) == "" then None else Some(Trim(body))
  {
    SynonymsWellTitled(f);
    ExtractLeadingHeading(h, sp, line, body, tail, Synonyms(f));
  }

  /** Each field is matched on its own against the whole text: a
      '成交量分析' heading fills the fundamental analysis. */
  lemma VolumeHeadingFillsFundamental(body: string)
    requires NoDoubleHash(body) && Trim(body) != ""
    ensures Parse("## 成交量分析\n" + body).fundamentalAnalysis == Some(Trim(body))
  {
    var title := "成交量分析";
    assert Synonyms(Fundamental)[2] == title;
    assert AtIgnoringCase(title, 0, Synonyms(Fundamental)[2]);
    assert "##" + " " + title + "\n" + body + "" == "## 成交量分析\n" + body;
    SectionOfLeadingHeading("##", " ", title, body, "", Fundamental);
  }

  // ---------------------------------------------------------------------
  // The component

  /** What `AIAnalysisResult` shows: nothing for an empty answer, the boxes
      of the parts it found (each formatted), or else the whole answer
      formatted. */
  datatype View =
    | Nothing
    | Structured(summary: Option<string>, technicalAnalysis: Option<string>,
                 fundamentalAnalysis: Option<string>, recommendation: Option<string>,
                 risks: Option<string>)
    | Whole(html: string)

  function FormatPart(part: Option<string>): (r: Option<string>)
    ensures r.Some? <==> part.Some?
    ensures r.Some? ==> Markdown.Lacks(r.value, '\n')
  {
    match part
    case None => None
    case Some(text) => Some(Markdown.Format(text))
  }

  /** No part was found. */
  predicate NoPart(p: Parsed) {
    p.summary.None? && p.technicalAnalysis.None? && p.fundamentalAnalysis.None?
    && p.recommendation.None? && p.risks.None?
  }

  function Render(content: string): (v: View)
    ensures v.Nothing? <==> content == ""
    ensures content != "" ==> (v.Whole? <==> NoPart(Parse(content)))
    ensures v.Whole? ==> v.html == Markdown.Format(content)
    ensures v.Structured? ==>
      var p := Parse(content);
      v.summary == FormatPart(p.summary) && v.technicalAnalysis == FormatPart(p.technicalAnalysis)
      && v.fundamentalAnalysis == FormatPart(p.fundamentalAnalysis)
      && v.recommendation == FormatPart(p.recommendation) && v.risks == FormatPart(p.risks)
  {
    if content == "" then Nothing
    else
      var p := Parse(content);
      if p.summary.Some? || p.technicalAnalysis.Some? || p.fundamentalAnalysis.Some?
         || p.recommendation.Some? || p.risks.Some?
      then Structured(FormatPart(p.summary), FormatPart(p.technicalAnalysis),
                      FormatPart(p.fundamentalAnalysis), FormatPart(p.recommendation),
                      FormatPart(p.risks))
      else Whole(Markdown.Format(content))
  }

  /** An answer without any '#' is shown as a summary box only. */
  lemma PlainAnswerIsSummary(content: string)
    requires Markdown.Lacks(content, '#') && Trim(content) != ""
    ensures Render(content) == Structured(Some(Markdown.Format(Trim(content))), None, None, None, None)
  {
    SummaryOfPlainText(content);
    HashFreeHasNoSection(content, Synonyms(Technical));
    HashFreeHasNoSection(content, Synonyms(Fundamental));
    HashFreeHasNoSection(content, Synonyms(Recommendation));
    HashFreeHasNoSection(content, Synonyms(Risks));
  }

  /** A one-line answer that opens with '#' has neither summary nor
      sections and is shown whole. */
  lemma HeadlineIsShownWhole(content: string)
    requires content != "" && content[0] == '#' && Markdown.Lacks(content, '\n')
    ensures Render(content) == Whole(Markdown.Format(content))
  {
    assert HashFree(content) == 0;
    OneLineHasNoSection(content, Synonyms(Technical));
    OneLineHasNoSection(content, Synonyms(Fundamental));
    OneLineHasNoSection(content, Synonyms(Recommendation));
    OneLineHasNoSection(content, Synonyms(Risks));
  }
}
