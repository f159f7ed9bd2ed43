/** `formatMarkdownToHtml` of ai-analysis-result.tsx: a fixed chain of
    global regular-expression replacements over the whole string. Each
    replacement works on its input as it stands, so the chain is function
    composition. Nothing is escaped. */
module Markdown {
  import opened Wrappers
  import opened JsText

  /** The class list the three heading tags share after their text size. */
  const HeadingClassTail: string := " font-bold my-2\">"
  const H1Open: string := "<h1 class=\"text-xl" + HeadingClassTail
  const H1Close: string := "</h1>"
  const H2Open: string := "<h2 class=\"text-lg" + HeadingClassTail
  const H2Close: string := "</h2>"
  const H3Open: string := "<h3 class=\"text-md" + HeadingClassTail
  const H3Close: string := "</h3>"
  const LiOpen: string := "<li class=\"ml-4\">"
  const LiClose: string := "</li>"
  const StrongOpen: string := "<strong>"
  const StrongClose: string := "</strong>"
  const EmOpen: string := "<em>"
  const EmClose: string := "</em>"
  const Br: string := "<br>"

  /** No character of `s` is `c`. */
  predicate Lacks(s: string, c: char) {
    forall k :: 0 <= k < |s| ==> s[k] != c
  }

  /** `s` has no line terminator. */
  predicate OneLine(s: string) {
    forall k :: 0 <= k < |s| ==> !IsLineTerminator(s[k])
  }

  /** `s` is one line without '*' or '_'. */
  predicate Plain(s: string) {
    forall k :: 0 <= k < |s| ==> s[k] != '*' && s[k] != '_' && !IsLineTerminator(s[k])
  }

  /** The number of line terminators in `s`. */
  function Breaks(s: string): nat {
    if s == [] then 0 else (if IsLineTerminator(s[0]) then 1 else 0) + Breaks(s[1..])
  }

  lemma {:induction false} BreaksConcat(a: string, b: string)
    ensures Breaks(a + b) == Breaks(a) + Breaks(b)
  {
    if a == [] {
      assert a + b == b;
    } else {
      assert (a + b)[1..] == a[1..] + b;
      BreaksConcat(a[1..], b);
    }
  }

  lemma {:induction false} BreaksOfOneLine(s: string)
    requires OneLine(s)
    ensures Breaks(s) == 0
  {
    if s != [] {
      BreaksOfOneLine(s[1..]);
    }
  }

  /** A one-line piece, a terminator and a rest that keeps the count of the
      text after the terminator keep the count of the whole text. */
  lemma PiecesKeepBreaks(s: string, k: nat, e: nat, out: string, rest: string)
    requires k <= e <= |s| && OneLine(s[k..e]) && OneLine(out)
    requires e < |s| ==> IsLineTerminator(s[e]) && Breaks(rest) == Breaks(s[e + 1..])
    ensures Breaks(if e == |s| then out else out + [s[e]] + rest) == Breaks(s[k..])
  {
    BreaksOfOneLine(out);
    BreaksOfOneLine(s[k..e]);
    if e == |s| {
      assert s[k..] == s[k..e];
    } else {
      assert s[k..] == s[k..e] + ([s[e]] + s[e + 1..]);
      BreaksConcat(s[k..e], [s[e]] + s[e + 1..]);
      BreaksConcat([s[e]], s[e + 1..]);
      assert out + [s[e]] + rest == out + ([s[e]] + rest);
      BreaksConcat(out, [s[e]] + rest);
      BreaksConcat([s[e]], rest);
      assert Breaks([s[e]]) == 1 by {
        assert [s[e]][1..] == [];
      }
    }
  }

  /** One step of a line rule: with one-line tags, the rewritten line, its
      terminator and a rest that keeps the count of the text after the
      terminator keep the count of the text from the line's start. */
  lemma LineStepKeepsBreaks(s: string, k: nat, e: nat, p: string, open: string, close: string, rest: string)
    requires k <= e <= |s| && OneLine(s[k..e]) && (e < |s| ==> IsLineTerminator(s[e]))
    ensures OneLine(open) && OneLine(close) && (e < |s| ==> Breaks(rest) == Breaks(s[e + 1..])) ==>
      var line := s[k..e];
      var out := if At(line, 0, p) then open + line[|p|..] + close else line;
      Breaks(if e == |s| then out else out + [s[e]] + rest) == Breaks(s[k..])
  {
    var line := s[k..e];
    var out := if At(line, 0, p) then open + line[|p|..] + close else line;
    if OneLine(open) && OneLine(close) && (e < |s| ==> Breaks(rest) == Breaks(s[e + 1..])) {
      if At(line, 0, p) {
        OneLineSlice(s, k + |p|, e);
        assert line[|p|..] == s[k + |p|..e];
        OneLineConcat(open, line[|p|..], close);
      }
      PiecesKeepBreaks(s, k, e, out, rest);
    }
  }

  /** Three one-line parts make a one-line text. */
  lemma OneLineConcat(a: string, b: string, c: string)
    requires OneLine(a) && OneLine(b) && OneLine(c)
    ensures OneLine(a + b + c)
  {
    OneLineAfterPrefix(a, b);
    OneLineAfterPrefix(a + b, c);
  }

  /** Some line of `s` (a position at the start or after a line terminator)
      starts with `p`. */
  predicate LineStartsWith(s: string, p: string) {
    exists j {:trigger At(s, j, p)} :: 0 <= j < |s| && (j == 0 || IsLineTerminator(s[j - 1])) && At(s, j, p)
  }

  // ---------------------------------------------------------------------
  // Line rules: replace(/^P(.*?)$/gm, open + '$1' + close)

  /** The end of the line that starts at `k`: the first line terminator at
      or after `k`, or the end of the text. */
  function LineEnd(s: string, k: nat): (e: nat)
    requires k <= |s|
    ensures k <= e <= |s|
    ensures forall j :: k <= j < e ==> !IsLineTerminator(s[j])
    ensures e < |s| ==> IsLineTerminator(s[e])
    decreases |s| - k
  {
    if k == |s| || IsLineTerminator(s[k]) then k else LineEnd(s, k + 1)
  }

  /** The lines from position `k` on, each one that starts with `p`
      wrapped as `open + rest of line + close`, terminators kept. `^` and `$`
      under the `m` flag respect every line terminator, and `.` matches none,
      so the lazy group is exactly the rest of the line. */
  function LineRule(s: string, k: nat, p: string, open: string, close: string): string
    requires k <= |s|
    decreases |s| - k
  {
    var e := LineEnd(s, k);
    var line := s[k..e];
    var out := if At(line, 0, p) then open + line[|p|..] + close else line;
    if e == |s| then out else out + [s[e]] + LineRule(s, e + 1, p, open, close)
  }

  /** With one-line tags a line rule keeps every line terminator: the text
      has as many lines afterwards. */
  lemma {:induction false} LineRuleKeepsBreaks(s: string, k: nat, p: string, open: string, close: string)
    requires k <= |s| && OneLine(open) && OneLine(close)
    ensures Breaks(LineRule(s, k, p, open, close)) == Breaks(s[k..])
    decreases |s| - k
  {
    var e := LineEnd(s, k);
    if e < |s| {
      LineRuleKeepsBreaks(s, e + 1, p, open, close);
    }
    LineRuleStepBreaks(s, k, p, open, close);
  }

  /** The step of the proof above: the first line of the text keeps its
      count, given that the rule over the rest keeps its count. */
  lemma LineRuleStepBreaks(s: string, k: nat, p: string, open: string, close: string)
    requires k <= |s| && OneLine(open) && OneLine(close)
    requires LineEnd(s, k) < |s| ==>
      Breaks(LineRule(s, LineEnd(s, k) + 1, p, open, close)) == Breaks(s[LineEnd(s, k) + 1..])
    ensures Breaks(LineRule(s, k, p, open, close)) == Breaks(s[k..])
  {
    var e := LineEnd(s, k);
    var rest := if e == |s| then [] else LineRule(s, e + 1, p, open, close);
    OneLineSlice(s, k, e);
    LineStepKeepsBreaks(s, k, e, p, open, close, rest);
  }

  lemma {:induction false} LineEndOfOneLine(s: string, k: nat)
    requires k <= |s| && OneLine(s)
    ensures LineEnd(s, k) == |s|
    decreases |s| - k
  {
    if k < |s| {
      LineEndOfOneLine(s, k + 1);
    }
  }

  /** On a single line the rule wraps it exactly when it starts with `p`. */
  lemma LineRuleOneLine(s: string, p: string, open: string, close: string)
    requires OneLine(s)
    ensures LineRule(s, 0, p, open, close) == if At(s, 0, p) then open + s[|p|..] + close else s
  {
    LineEndOfOneLine(s, 0);
    assert s[0..|s|] == s;
  }

  /** One step of a rule over a line that does not start with `p`. */
  lemma LineRuleStep(s: string, k: nat, p: string, open: string, close: string)
    requires k <= |s| && p != [] && (k == |s| || !At(s, k, p))
    ensures var e := LineEnd(s, k);
            LineRule(s, k, p, open, close)
            == if e == |s| then s[k..e] else s[k..e] + [s[e]] + LineRule(s, e + 1, p, open, close)
  {
    var e := LineEnd(s, k);
    var line := s[k..e];
    if |p| <= |line| {
      assert line[..|p|] == s[k..k + |p|];
    }
  }

  /** A rule whose prefix starts no line leaves the text untouched. */
  lemma {:induction false} LineRuleIdentity(s: string, k: nat, p: string, open: string, close: string)
    requires k <= |s| && p != []
    requires k == 0 || IsLineTerminator(s[k - 1])
    requires !LineStartsWith(s, p)
    ensures LineRule(s, k, p, open, close) == s[k..]
    decreases |s| - k
  {
    var e := LineEnd(s, k);
    assert k == |s| || !At(s, k, p);
    if e < |s| {
      LineRuleIdentity(s, e + 1, p, open, close);
    }
    IdentityStep(s, k, p, open, close);
  }

  /** One line of the identity: a line that does not start with `p` is
      copied, and so is the whole text when the rest comes back unchanged. */
  lemma IdentityStep(s: string, k: nat, p: string, open: string, close: string)
    requires k <= |s| && p != [] && (k == |s| || !At(s, k, p))
    requires LineEnd(s, k) < |s| ==> LineRule(s, LineEnd(s, k) + 1, p, open, close) == s[LineEnd(s, k) + 1..]
    ensures LineRule(s, k, p, open, close) == s[k..]
  {
    var e := LineEnd(s, k);
    LineRuleStep(s, k, p, open, close);
    if e < |s| {
      calc {
        LineRule(s, k, p, open, close);
        s[k..e] + [s[e]] + LineRule(s, e + 1, p, open, close);
        s[k..e] + [s[e]] + s[e + 1..];
        { SplitAt(s, k, e); }
        s[k..];
      }
    }
  }

  lemma SplitAt(s: string, k: nat, e: nat)
    requires k <= e < |s|
    ensures s[k..] == s[k..e] + [s[e]] + s[e + 1..]
  {
  }

  /** A rule whose prefix does not start a one-line text leaves it alone. */
  lemma LineRuleNoStart(s: string, p: string, open: string, close: string)
    requires OneLine(s) && s != [] && p != [] && s[0] != p[0]
    ensures LineRule(s, 0, p, open, close) == s
  {
    LineRuleOneLine(s, p, open, close);
    if |p| <= |s| {
      assert s[..|p|][0] == s[0];
    }
  }

  /** Text without the first character of `p` has no line starting with `p`. */
  lemma LacksStart(s: string, p: string)
    requires p != [] && Lacks(s, p[0])
    ensures !LineStartsWith(s, p)
  {
    forall j | 0 <= j < |s| ensures !At(s, j, p) {
      if j + |p| <= |s| {
        assert s[j..j + |p|][0] == s[j];
      }
    }
  }

  // ---------------------------------------------------------------------
  // Emphasis rules: replace(/D(.*?)D/g, open + '$1' + close)

  /** The closing delimiter of a match whose content starts at `j`: the
      first `d` at or after `j`, unless a line terminator comes first. */
  function FindClose(s: string, j: nat, d: string): (r: Option<nat>)
    requires j <= |s| && d != []
    ensures r.Some? ==> j <= r.value && r.value + |d| <= |s| && At(s, r.value, d)
    ensures r.Some? ==> forall k :: j <= k < r.value ==> !IsLineTerminator(s[k]) && !At(s, k, d)
    decreases |s| - j
  {
    if j + |d| > |s| then None
    else if s[j..j + |d|] == d then Some(j)
    else if IsLineTerminator(s[j]) then None
    else FindClose(s, j + 1, d)
  }

  /** The text from position `i` on with every match replaced, scanning
      left to right and resuming after each match. */
  function Emphasis(s: string, i: nat, d: string, open: string, close: string): string
    requires i <= |s| && d != []
    decreases |s| - i
  {
    if i == |s| then []
    else if At(s, i, d) && FindClose(s, i + |d|, d).Some? then
      var j := FindClose(s, i + |d|, d).value;
      open + s[i + |d|..j] + close + Emphasis(s, j + |d|, d, open, close)
    else [s[i]] + Emphasis(s, i + 1, d, open, close)
  }

  lemma OneLineSlice(s: string, a: nat, b: nat)
    requires a <= b <= |s| && forall k :: a <= k < b ==> !IsLineTerminator(s[k])
    ensures OneLine(s[a..b])
  {
    forall k | 0 <= k < b - a ensures !IsLineTerminator(s[a..b][k]) {
      assert s[a..b][k] == s[a + k];
    }
  }

  /** Without the delimiter's first character nothing is replaced. */
  lemma {:induction false} EmphasisIdentity(s: string, i: nat, d: string, open: string, close: string)
    requires i <= |s| && d != [] && Lacks(s, d[0])
    ensures Emphasis(s, i, d, open, close) == s[i..]
    decreases |s| - i
  {
    if i < |s| {
      assert !At(s, i, d) by {
        if i + |d| <= |s| {
          assert s[i..i + |d|][0] == s[i];
        }
      }
      EmphasisIdentity(s, i + 1, d, open, close);
      assert s[i..] == [s[i]] + s[i + 1..];
    }
  }

  /** The closing delimiter is found across a stretch free of line
      terminators and of the delimiter's first character. */
  lemma {:induction false} FindCloseAcross(s: string, j: nat, e: nat, d: string)
    requires j <= e && e + |d| <= |s| && d != [] && At(s, e, d)
    requires forall k :: j <= k < e ==> s[k] != d[0] && !IsLineTerminator(s[k])
    ensures FindClose(s, j, d) == Some(e)
    decreases e - j
  {
    if j < e {
      assert s[j..j + |d|] != d by {
        assert s[j..j + |d|][0] == s[j];
      }
      FindCloseAcross(s, j + 1, e, d);
    }
  }

  // ---------------------------------------------------------------------
  // Newlines and the whole chain

  /** replace(/\n/g, '<br>'). */
  function BreakLines(s: string): (r: string)
    ensures Lacks(r, '\n')
    ensures Lacks(s, '\n') ==> r == s
  {
    if s == [] then []
    else (if s[0] == '\n' then Br else [s[0]]) + BreakLines(s[1..])
  }

  /** The headings and list items, in the order of the source. */
  function LineRules(s: string): string {
    var h1 := LineRule(s, 0, "# ", H1Open, H1Close);
    var h2 := LineRule(h1, 0, "## ", H2Open, H2Close);
    var h3 := LineRule(h2, 0, "### ", H3Open, H3Close);
    var dash := LineRule(h3, 0, "- ", LiOpen, LiClose);
    LineRule(dash, 0, "* ", LiOpen, LiClose)
  }

  /** Bold before italic, asterisks before underscores. */
  function EmphasisRules(s: string): string {
    var b1 := Emphasis(s, 0, "**", StrongOpen, StrongClose);
    var b2 := Emphasis(b1, 0, "__", StrongOpen, StrongClose);
    var i1 := Emphasis(b2, 0, "*", EmOpen, EmClose);
    Emphasis(i1, 0, "_", EmOpen, EmClose)
  }

  /** The five line rules keep the number of line terminators. */
  lemma LineRulesKeepBreaks(s: string)
    ensures Breaks(LineRules(s)) == Breaks(s)
  {
    TagsArePlain();
    var h1 := LineRule(s, 0, "# ", H1Open, H1Close);
    var h2 := LineRule(h1, 0, "## ", H2Open, H2Close);
    var h3 := LineRule(h2, 0, "### ", H3Open, H3Close);
    var dash := LineRule(h3, 0, "- ", LiOpen, LiClose);
    assert s[0..] == s && h1[0..] == h1 && h2[0..] == h2 && h3[0..] == h3 && dash[0..] == dash;
    LineRuleKeepsBreaks(s, 0, "# ", H1Open, H1Close);
    LineRuleKeepsBreaks(h1, 0, "## ", H2Open, H2Close);
    LineRuleKeepsBreaks(h2, 0, "### ", H3Open, H3Close);
    LineRuleKeepsBreaks(h3, 0, "- ", LiOpen, LiClose);
    LineRuleKeepsBreaks(dash, 0, "* ", LiOpen, LiClose);
  }

  /** `formatMarkdownToHtml`. */
  function Format(markdown: string): (html: string)
    ensures markdown == "" ==> html == ""
    ensures Lacks(html, '\n')
  {
    if markdown == "" then "" else BreakLines(EmphasisRules(LineRules(markdown)))
  }

  // ---------------------------------------------------------------------
  // Properties of the chain

  /** The emphasis rules leave text without '*' and '_' alone. */
  lemma EmphasisRulesIdentity(s: string)
    requires Lacks(s, '*') && Lacks(s, '_')
    ensures EmphasisRules(s) == s
  {
    EmphasisIdentity(s, 0, "**", StrongOpen, StrongClose);
    EmphasisIdentity(s, 0, "__", StrongOpen, StrongClose);
    EmphasisIdentity(s, 0, "*", EmOpen, EmClose);
    EmphasisIdentity(s, 0, "_", EmOpen, EmClose);
  }

  /** No escaping: text with no '#', '*', '_' or '\n' and no line starting
      "- " comes back unchanged, '<', '>' and '&' included. */
  lemma FormatIdentity(s: string)
    requires Lacks(s, '#') && Lacks(s, '*') && Lacks(s, '_') && Lacks(s, '\n')
    requires !LineStartsWith(s, "- ")
    ensures Format(s) == s
  {
    if s != "" {
      LacksStart(s, "# ");
      LacksStart(s, "## ");
      LacksStart(s, "### ");
      LacksStart(s, "* ");
      LineRuleIdentity(s, 0, "# ", H1Open, H1Close);
      LineRuleIdentity(s, 0, "## ", H2Open, H2Close);
      LineRuleIdentity(s, 0, "### ", H3Open, H3Close);
      LineRuleIdentity(s, 0, "- ", LiOpen, LiClose);
      LineRuleIdentity(s, 0, "* ", LiOpen, LiClose);
      assert LineRules(s) == s;
      EmphasisRulesIdentity(s);
    }
  }

  lemma PlainFacts(s: string)
    requires Plain(s)
    ensures OneLine(s) && Lacks(s, '*') && Lacks(s, '_') && Lacks(s, '\n')
  {
  }

  /** `open + x + close` is plain when its three parts are. */
  lemma PlainConcat(open: string, x: string, close: string)
    requires Plain(open) && Plain(x) && Plain(close)
    ensures Plain(open + x + close)
  {
    var t := open + x + close;
    forall k | 0 <= k < |t| ensures t[k] != '*' && t[k] != '_' && !IsLineTerminator(t[k]) {
      if k < |open| {
        assert t[k] == open[k];
      } else if k < |open| + |x| {
        assert t[k] == x[k - |open|];
      } else {
        assert t[k] == close[k - |open| - |x|];
      }
    }
  }

  /** The tags are plain. */
  lemma TagsArePlain()
    ensures Plain(H1Open) && Plain(H1Close) && Plain(H2Open) && Plain(H2Close)
    ensures Plain(H3Open) && Plain(H3Close) && Plain(LiOpen) && Plain(LiClose)
    ensures Plain(StrongOpen) && Plain(StrongClose)
  {
    HeadingTagsArePlain();
  }

  lemma HeadingTagsArePlain()
    ensures Plain(H1Open) && Plain(H2Open) && Plain(H3Open)
  {
    H1OpenIsPlain();
    H2OpenIsPlain();
    H3OpenIsPlain();
  }

  lemma H1OpenIsPlain()
    ensures Plain(H1Open)
  {
    HeadingClassTailIsPlain();
    PlainConcat("<h1 class=\"text-xl", HeadingClassTail, "");
  }

  lemma H2OpenIsPlain()
    ensures Plain(H2Open)
  {
    HeadingClassTailIsPlain();
    PlainConcat("<h2 class=\"text-lg", HeadingClassTail, "");
  }

  lemma H3OpenIsPlain()
    ensures Plain(H3Open)
  {
    HeadingClassTailIsPlain();
    PlainConcat("<h3 class=\"text-md", HeadingClassTail, "");
  }

  lemma HeadingClassTailIsPlain()
    ensures Plain(HeadingClassTail)
  {
  }

  /** A plain one-line text that starts with '<' is left alone by every
      rule that can follow a heading or item rule. */
  lemma TagUntouched(t: string)
    requires Plain(t) && t != [] && t[0] == '<'
    ensures LineRule(t, 0, "## ", H2Open, H2Close) == t
    ensures LineRule(t, 0, "### ", H3Open, H3Close) == t
    ensures LineRule(t, 0, "- ", LiOpen, LiClose) == t
    ensures LineRule(t, 0, "* ", LiOpen, LiClose) == t
    ensures EmphasisRules(t) == t && BreakLines(t) == t
  {
    PlainFacts(t);
    LineRuleNoStart(t, "## ", H2Open, H2Close);
    LineRuleNoStart(t, "### ", H3Open, H3Close);
    LineRuleNoStart(t, "- ", LiOpen, LiClose);
    LineRuleNoStart(t, "* ", LiOpen, LiClose);
    EmphasisRulesIdentity(t);
  }

  /** A rule that fires on a plain line wraps it, and the result is a
      plain line that starts with '<'. */
  lemma Wraps(s: string, p: string, open: string, close: string)
    requires OneLine(s) && At(s, 0, p) && Plain(s[|p|..])
    requires Plain(open) && Plain(close) && open != [] && open[0] == '<'
    ensures LineRule(s, 0, p, open, close) == open + s[|p|..] + close
    ensures Plain(open + s[|p|..] + close) && (open + s[|p|..] + close)[0] == '<'
  {
    LineRuleOneLine(s, p, open, close);
    PlainConcat(open, s[|p|..], close);
  }

  /** A '# ' line becomes an h1. */
  lemma FormatH1(x: string)
    requires Plain(x)
    ensures Format("# " + x) == H1Open + x + H1Close
  {
    TagsArePlain();
    var s := "# " + x;
    PlainFacts(x);
    OneLineAfterPrefix("# ", x);
    assert s[2..] == x;
    Wraps(s, "# ", H1Open, H1Close);
    TagUntouched(H1Open + x + H1Close);
  }

  /** A '## ' line becomes an h2, never an h1. */
  lemma FormatH2(x: string)
    requires Plain(x)
    ensures Format("## " + x) == H2Open + x + H2Close
  {
    TagsArePlain();
    var s := "## " + x;
    PlainFacts(x);
    OneLineAfterPrefix("## ", x);
    assert s[3..] == x;
    LineRuleOneLine(s, "# ", H1Open, H1Close);
    assert !At(s, 0, "# ") by { assert s[1] == '#'; }
    Wraps(s, "## ", H2Open, H2Close);
    TagUntouched(H2Open + x + H2Close);
  }

  /** The five line rules, one result at a time. */
  lemma LineRulesChain(s: string, t1: string, t2: string, t3: string, t4: string, t5: string)
    requires LineRule(s, 0, "# ", H1Open, H1Close) == t1
    requires LineRule(t1, 0, "## ", H2Open, H2Close) == t2
    requires LineRule(t2, 0, "### ", H3Open, H3Close) == t3
    requires LineRule(t3, 0, "- ", LiOpen, LiClose) == t4
    requires LineRule(t4, 0, "* ", LiOpen, LiClose) == t5
    ensures LineRules(s) == t5
  {
  }

  /** A '### ' line becomes an h3. */
  lemma FormatH3(x: string)
    requires Plain(x)
    ensures Format("### " + x) == H3Open + x + H3Close
  {
    TagsArePlain();
    var s := "### " + x;
    PlainFacts(x);
    OneLineAfterPrefix("### ", x);
    assert s[4..] == x;
    LineRuleOneLine(s, "# ", H1Open, H1Close);
    LineRuleOneLine(s, "## ", H2Open, H2Close);
    assert !At(s, 0, "# ") by { assert s[1] == '#'; }
    assert !At(s, 0, "## ") by { assert s[2] == '#'; }
    var w := H3Open + x + H3Close;
    Wraps(s, "### ", H3Open, H3Close);
    TagUntouched(w);
    LineRulesChain(s, s, s, w, w, w);
  }

  /** A '- ' line becomes a list item. */
  lemma FormatDashItem(x: string)
    requires Plain(x)
    ensures Format("- " + x) == LiOpen + x + LiClose
  {
    TagsArePlain();
    var s := "- " + x;
    PlainFacts(x);
    OneLineAfterPrefix("- ", x);
    assert s[2..] == x;
    LineRuleNoStart(s, "# ", H1Open, H1Close);
    LineRuleNoStart(s, "## ", H2Open, H2Close);
    LineRuleNoStart(s, "### ", H3Open, H3Close);
    Wraps(s, "- ", LiOpen, LiClose);
    TagUntouched(LiOpen + x + LiClose);
  }

  /** A '* ' line becomes a list item before the emphasis rules see its
      asterisk. */
  lemma FormatStarItem(x: string)
    requires Plain(x)
    ensures Format("* " + x) == LiOpen + x + LiClose
  {
    TagsArePlain();
    var s := "* " + x;
    PlainFacts(x);
    OneLineAfterPrefix("* ", x);
    assert s[2..] == x;
    LineRuleNoStart(s, "# ", H1Open, H1Close);
    LineRuleNoStart(s, "## ", H2Open, H2Close);
    LineRuleNoStart(s, "### ", H3Open, H3Close);
    LineRuleNoStart(s, "- ", LiOpen, LiClose);
    Wraps(s, "* ", LiOpen, LiClose);
    TagUntouched(LiOpen + x + LiClose);
  }

  lemma OneLineAfterPrefix(p: string, x: string)
    requires OneLine(p) && OneLine(x)
    ensures OneLine(p + x)
  {
    forall k | 0 <= k < |p + x| ensures !IsLineTerminator((p + x)[k]) {
      if k >= |p| {
        assert (p + x)[k] == x[k - |p|];
      } else {
        assert (p + x)[k] == p[k];
      }
    }
  }

  /** `**x**` on its own line, for a plain `x`, survives the line rules. */
  lemma BoldLineRules(x: string)
    requires Plain(x)
    ensures LineRules("**" + x + "**") == "**" + x + "**"
  {
    var s := "**" + x + "**";
    PlainFacts(x);
    OneLineAfterPrefix("**", x);
    OneLineAfterPrefix("**" + x, "**");
    assert s[0] == '*';
    LineRuleNoStart(s, "# ", H1Open, H1Close);
    LineRuleNoStart(s, "## ", H2Open, H2Close);
    LineRuleNoStart(s, "### ", H3Open, H3Close);
    LineRuleNoStart(s, "- ", LiOpen, LiClose);
    LineRuleOneLine(s, "* ", LiOpen, LiClose);
    assert !At(s, 0, "* ") by { assert s[1] == '*'; }
    LineRulesChain(s, s, s, s, s, s);
  }

  /** The bold rule replaces `**x**` by `<strong>x</strong>`. */
  lemma BoldRule(x: string)
    requires Plain(x)
    ensures Emphasis("**" + x + "**", 0, "**", StrongOpen, StrongClose) == StrongOpen + x + StrongClose
  {
    var s := "**" + x + "**";
    var e := 2 + |x|;
    forall k | 2 <= k < e ensures s[k] != '*' && !IsLineTerminator(s[k]) {
      assert s[k] == x[k - 2];
    }
    assert s[e..e + 2] == "**";
    FindCloseAcross(s, 2, e, "**");
    assert s[0..2] == "**";
    assert s[2..e] == x;
    assert Emphasis(s, e + 2, "**", StrongOpen, StrongClose) == [];
  }

  /** `**x**` becomes `<strong>x</strong>` for a plain `x`. */
  lemma FormatBold(x: string)
    requires Plain(x)
    ensures Format("**" + x + "**") == StrongOpen + x + StrongClose
  {
    TagsArePlain();
    BoldLineRules(x);
    BoldRule(x);
    var t := StrongOpen + x + StrongClose;
    PlainConcat(StrongOpen, x, StrongClose);
    PlainFacts(t);
    EmphasisIdentity(t, 0, "__", StrongOpen, StrongClose);
    EmphasisIdentity(t, 0, "*", EmOpen, EmClose);
    EmphasisIdentity(t, 0, "_", EmOpen, EmClose);
  }
}
