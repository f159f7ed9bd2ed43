/** The code-list tokeniser of batch-futures-analysis-form.tsx: the text of
    the text area is split on runs of separators, every piece is trimmed and
    the empty pieces are dropped. */
module BatchForm {
  import opened JsText

  /** The class `[\n,，\s]`: newline, ASCII comma, full-width comma and
      every `\s` character. */
  predicate IsSeparator(c: char) {
    c == '\n' || c == ',' || c == '，' || IsSpace(c)
  }

  predicate NoSeparator(s: string) {
    forall i :: 0 <= i < |s| ==> !IsSeparator(s[i])
  }

  predicate AllSeparators(s: string) {
    forall i :: 0 <= i < |s| ==> IsSeparator(s[i])
  }

  /** Length of the longest prefix without a separator. */
  function FieldLength(s: string): (k: nat)
    ensures k <= |s|
    ensures NoSeparator(s[..k])
    ensures k < |s| ==> IsSeparator(s[k])
  {
    if s == [] || IsSeparator(s[0]) then 0
    else
      var k := 1 + FieldLength(s[1..]);
      assert s[..k] == [s[0]] + s[1..][..k - 1];
      k
  }

  /** Length of the longest prefix of separators. */
  function SeparatorRun(s: string): (k: nat)
    ensures k <= |s|
    ensures AllSeparators(s[..k])
    ensures k < |s| ==> !IsSeparator(s[k])
  {
    if s == [] || !IsSeparator(s[0]) then 0
    else
      var k := 1 + SeparatorRun(s[1..]);
      assert s[..k] == [s[0]] + s[1..][..k - 1];
      k
  }

  /** `s.split(/[\n,，\s]+/)`: the pieces between maximal separator runs,
      with an empty piece before a leading run and after a trailing one;
      the empty text splits into one empty piece. */
  function Split(s: string): (pieces: seq<string>)
    ensures pieces != []
    ensures forall i :: 0 <= i < |pieces| ==> NoSeparator(pieces[i])
    decreases |s|
  {
    var k := FieldLength(s);
    if k == |s| then [s]
    else
      var r := SeparatorRun(s[k..]);
      [s[..k]] + Split(s[k + r..])
  }

  /** `.map(code => code.trim())`. */
  function TrimAll(pieces: seq<string>): (r: seq<string>)
    ensures |r| == |pieces|
    ensures forall i :: 0 <= i < |r| ==> r[i] == Trim(pieces[i])
  {
    if pieces == [] then [] else [Trim(pieces[0])] + TrimAll(pieces[1..])
  }

  /** `.filter(code => code.length > 0)`. */
  function NonEmpty(pieces: seq<string>): (r: seq<string>)
    ensures |r| <= |pieces|
    ensures forall i :: 0 <= i < |r| ==> r[i] != [] && r[i] in pieces
  {
    if pieces == [] then []
    else if pieces[0] == [] then NonEmpty(pieces[1..])
    else [pieces[0]] + NonEmpty(pieces[1..])
  }

  /** The codes `handleSubmit` passes on. */
  function Codes(text: string): (r: seq<string>)
    ensures |r| <= |Split(text)|
    ensures forall i :: 0 <= i < |r| ==>
              r[i] != [] && exists j :: 0 <= j < |Split(text)| && r[i] == Trim(Split(text)[j])
  {
    NonEmpty(TrimAll(Split(text)))
  }

  // ---------------------------------------------------------------------
  // A reference definition: the maximal separator-free runs, left to right

  function Tokens(s: string): (ts: seq<string>)
    ensures forall i :: 0 <= i < |ts| ==> ts[i] != [] && NoSeparator(ts[i])
    decreases |s|
  {
    if s == [] then []
    else if IsSeparator(s[0]) then Tokens(s[1..])
    else
      var k := FieldLength(s);
      [s[..k]] + Tokens(s[k..])
  }

  /** A leading run of separators yields no token. */
  lemma {:induction false} TokensSkipSeparators(s: string, r: nat)
    requires r <= |s| && AllSeparators(s[..r])
    ensures Tokens(s) == Tokens(s[r..])
    decreases r
  {
    if r > 0 {
      assert IsSeparator(s[..r][0]);
      assert s[1..][..r - 1] == s[..r][1..];
      TokensSkipSeparators(s[1..], r - 1);
      assert s[1..][r - 1..] == s[r..];
    }
  }

  /** Trimming leaves a piece without separators alone. */
  lemma TrimPiece(p: string)
    requires NoSeparator(p)
    ensures Trim(p) == p
  {
    TrimClean(p);
  }

  /** A text without separators is one run. */
  lemma {:induction false} FieldLengthAll(t: string)
    requires NoSeparator(t)
    ensures FieldLength(t) == |t|
  {
    if t != [] {
      FieldLengthAll(t[1..]);
    }
  }

  /** A single clean code is its own only token. */
  lemma TokensOfOne(t: string)
    requires t != [] && NoSeparator(t)
    ensures Tokens(t) == [t]
  {
    FieldLengthAll(t);
    assert t[..|t|] == t;
    assert t[|t|..] == [];
  }

  lemma SliceOfSlice(s: string, k: nat, r: nat)
    requires k <= |s| && r <= |s| - k
    ensures s[k..][r..] == s[k + r..]
  {
  }

  /** One step of the chain: a text that opens with a separator run loses
      it. */
  lemma CodesSkipRun(s: string, r: nat)
    requires FieldLength(s) == 0 < |s| && r == SeparatorRun(s[0..])
    ensures Codes(s) == Codes(s[r..])
  {
    assert s[..0] == [] && Trim([]) == [];
    assert Split(s) == [[]] + Split(s[r..]);
    assert TrimAll(Split(s)) == [[]] + TrimAll(Split(s[r..]));
  }

  /** One step of the chain: the piece before the first separator run is
      the first code, and the codes after the run follow. */
  lemma CodesTakeField(s: string, k: nat, r: nat)
    requires 0 < k == FieldLength(s) < |s| && r == SeparatorRun(s[k..])
    ensures Codes(s) == [s[..k]] + Codes(s[k + r..])
  {
    TrimPiece(s[..k]);
    assert Split(s) == [s[..k]] + Split(s[k + r..]);
    assert TrimAll(Split(s)) == [s[..k]] + TrimAll(Split(s[k + r..]));
  }

  /** The same two steps of the reference definition. */
  lemma TokensSkipRun(s: string, r: nat)
    requires FieldLength(s) == 0 && r == SeparatorRun(s[0..])
    ensures Tokens(s) == Tokens(s[r..])
  {
    assert s[0..] == s;
    TokensSkipSeparators(s, r);
  }

  lemma TokensTakeField(s: string, k: nat, r: nat)
    requires 0 < k == FieldLength(s) < |s| && r == SeparatorRun(s[k..])
    ensures Tokens(s) == [s[..k]] + Tokens(s[k + r..])
  {
    TokensUnfold(s);
    TokensSkipSeparators(s[k..], r);
    SliceOfSlice(s, k, r);
  }

  lemma TokensUnfold(s: string)
    requires s != [] && !IsSeparator(s[0])
    ensures Tokens(s) == [s[..FieldLength(s)]] + Tokens(s[FieldLength(s)..])
  {
  }

  lemma NonEmptyOne(p: string)
    ensures NonEmpty([p]) == if p == [] then [] else [p]
  {
    assert [p][1..] == [];
  }

  /** The split-map-filter chain yields exactly the maximal runs. */
  lemma {:induction false} CodesAreTokens(s: string)
    ensures Codes(s) == Tokens(s)
    decreases |s|
  {
    var k := FieldLength(s);
    if k == |s| {
      assert s[..k] == s;
      TrimPiece(s);
      assert TrimAll([s]) == [s];
      NonEmptyOne(s);
      if s != [] {
        TokensOfOne(s);
      }
    } else {
      var r := SeparatorRun(s[k..]);
      SliceOfSlice(s, k, r);
      if k == 0 {
        CodesSkipRun(s, r);
        TokensSkipRun(s, r);
      } else {
        CodesTakeField(s, k, r);
        TokensTakeField(s, k, r);
      }
      CodesAreTokens(s[k + r..]);
    }
  }

  // ---------------------------------------------------------------------
  // Properties

  /** Every code is non-empty and free of separators, so it was not
      changed by the trim. */
  lemma CodesAreClean(text: string)
    ensures forall i :: 0 <= i < |Codes(text)| ==> Codes(text)[i] != [] && NoSeparator(Codes(text)[i])
  {
    CodesAreTokens(text);
  }

  /** Text made only of separators yields no code. */
  lemma {:induction false} SeparatorsOnlyMeansNoCodes(text: string)
    requires AllSeparators(text)
    ensures Codes(text) == []
  {
    CodesAreTokens(text);
    assert text[..|text|] == text;
    TokensSkipSeparators(text, |text|);
  }

  /** The first separator-free run of `a` does not run on past a separator. */
  lemma {:induction false} FieldLengthStops(a: string, c: char, b: string)
    requires IsSeparator(c)
    ensures FieldLength(a + [c] + b) == FieldLength(a)
    decreases |a|
  {
    if a != [] && !IsSeparator(a[0]) {
      assert (a + [c] + b)[1..] == a[1..] + [c] + b;
      FieldLengthStops(a[1..], c, b);
    } else if a == [] {
      assert (a + [c] + b)[0] == c;
    }
  }

  /** Order is kept: the codes of two texts joined by a separator are the
      codes of the first followed by those of the second. */
  lemma {:induction false} TokensConcat(a: string, c: char, b: string)
    requires IsSeparator(c)
    ensures Tokens(a + [c] + b) == Tokens(a) + Tokens(b)
    decreases |a|
  {
    var s := a + [c] + b;
    if a == [] {
      assert s == [c] + b;
      assert s[1..] == b;
    } else if IsSeparator(a[0]) {
      assert s[1..] == a[1..] + [c] + b;
      TokensConcat(a[1..], c, b);
    } else {
      var k := FieldLength(a);
      FieldLengthStops(a, c, b);
      assert s[..k] == a[..k];
      assert s[k..] == a[k..] + [c] + b;
      TokensConcat(a[k..], c, b);
    }
  }

  lemma CodesConcat(a: string, c: char, b: string)
    requires IsSeparator(c)
    ensures Codes(a + [c] + b) == Codes(a) + Codes(b)
  {
    CodesAreTokens(a + [c] + b);
    CodesAreTokens(a);
    CodesAreTokens(b);
    TokensConcat(a, c, b);
  }

  /** The codes written back as one text, separated by commas: the input
      the idempotence property below feeds to the form a second time. */
  function JoinWithCommas(codes: seq<string>): (r: string)
    ensures codes == [] ==> r == ""
    ensures codes != [] ==> codes[0] <= r
    ensures |codes| > 1 ==> codes[0] + [','] <= r
  {
    if codes == [] then ""
    else if |codes| == 1 then codes[0]
    else codes[0] + [','] + JoinWithCommas(codes[1..])
  }

  lemma {:induction false} TokensOfJoin(codes: seq<string>)
    requires forall i :: 0 <= i < |codes| ==> codes[i] != [] && NoSeparator(codes[i])
    ensures Tokens(JoinWithCommas(codes)) == codes
  {
    if |codes| == 1 {
      TokensOfOne(codes[0]);
    } else if |codes| > 1 {
      TokensOfOne(codes[0]);
      TokensConcat(codes[0], ',', JoinWithCommas(codes[1..]));
      TokensOfJoin(codes[1..]);
    }
  }

  /** Idempotence: tokenising the comma-join of the codes gives them back. */
  lemma CodesIdempotent(text: string)
    ensures Codes(JoinWithCommas(Codes(text))) == Codes(text)
  {
    CodesAreTokens(text);
    CodesAreTokens(JoinWithCommas(Codes(text)));
    TokensOfJoin(Codes(text));
  }

  /** The submit button: `disabled={isLoading || !futuresCodes.trim()}`. */
  function SubmitEnabled(isLoading: bool, text: string): (enabled: bool)
    ensures enabled <==> !isLoading && !AllSpace(text)
  {
    !isLoading && Trim(text) != ""
  }

  /** A button that is disabled for want of text means no code could have
      been sent; the converse fails, since a lone ',' enables the button
      but yields no code. */
  lemma DisabledMeansNoCodes(text: string)
    requires !SubmitEnabled(false, text)
    ensures Codes(text) == []
  {
    SeparatorsOnlyMeansNoCodes(text);
  }

  lemma CommaEnablesButSendsNothing()
    ensures SubmitEnabled(false, ",") && Codes(",") == []
  {
    assert !AllSpace(",") by {
      assert !IsSpace(","[0]);
    }
    SeparatorsOnlyMeansNoCodes(",");
  }
}
