/** Screening shared by `scan_market`, `scan_futures_market` and the batch
    futures endpoint: analyse each code in turn, skip the ones whose
    analysis raises, keep the reports whose score reaches the minimum, and
    (for the two scans) sort the kept reports by score, highest first, with
    Python's stable `list.sort(key=..., reverse=True)`. */
module Screening {
  import opened Wrappers

  // ---------------------------------------------------------------------
  // The filter

  /** What one code contributes. A `None` minimum makes `score >= None`
      raise TypeError inside the per-code `try`, so the code is skipped like
      one whose analysis raised. */
  function Kept<R>(outcome: Result<R>, score: R -> int, minScore: Option<int>): (k: seq<R>)
    ensures |k| <= 1
    ensures |k| == 1 <==> outcome.Success? && minScore.Some? && score(outcome.value) >= minScore.value
    ensures |k| == 1 ==> k[0] == outcome.value
  {
    if outcome.Success? && minScore.Some? && score(outcome.value) >= minScore.value
    then [outcome.value] else []
  }

  /** The reports kept from `codes`, in the order of the codes. */
  function Passing<R>(codes: seq<string>, analyze: string -> Result<R>, score: R -> int,
                      minScore: Option<int>): (r: seq<R>)
    ensures |r| <= |codes|
  {
    if codes == [] then []
    else Passing(codes[..|codes| - 1], analyze, score, minScore)
         + Kept(analyze(codes[|codes| - 1]), score, minScore)
  }

  /** Every kept report reaches the minimum and is the analysis of a code. */
  lemma {:induction false} PassingSound<R>(codes: seq<string>, analyze: string -> Result<R>,
                                          score: R -> int, minScore: Option<int>)
    ensures forall r :: r in Passing(codes, analyze, score, minScore) ==>
              minScore.Some? && score(r) >= minScore.value
              && exists c :: c in codes && analyze(c) == Success(r)
    ensures |Passing(codes, analyze, score, minScore)| <= |codes|
  {
    if codes != [] {
      var init := codes[..|codes| - 1];
      PassingSound(init, analyze, score, minScore);
      forall r | r in Passing(codes, analyze, score, minScore)
        ensures minScore.Some? && score(r) >= minScore.value
                && exists c :: c in codes && analyze(c) == Success(r)
      {
        if r in Passing(init, analyze, score, minScore) {
          var c :| c in init && analyze(c) == Success(r);
          assert c in codes;
        } else {
          assert analyze(codes[|codes| - 1]) == Success(r);
        }
      }
    }
  }

  /** Every successful analysis that reaches the minimum is kept. */
  lemma {:induction false} PassingComplete<R>(codes: seq<string>, analyze: string -> Result<R>,
                                             score: R -> int, minScore: Option<int>, i: nat)
    requires i < |codes| && minScore.Some?
    requires analyze(codes[i]).Success? && score(analyze(codes[i]).value) >= minScore.value
    ensures analyze(codes[i]).value in Passing(codes, analyze, score, minScore)
  {
    var init := codes[..|codes| - 1];
    if i < |codes| - 1 {
      assert init[i] == codes[i];
      PassingComplete(init, analyze, score, minScore, i);
    }
  }

  /** The filter keeps input order: screening a concatenation screens each
      part and concatenates the results. */
  lemma {:induction false} PassingAppend<R>(a: seq<string>, b: seq<string>, analyze: string -> Result<R>,
                                           score: R -> int, minScore: Option<int>)
    ensures Passing(a + b, analyze, score, minScore)
            == Passing(a, analyze, score, minScore) + Passing(b, analyze, score, minScore)
  {
    if b == [] {
      assert a + b == a;
    } else {
      var b' := b[..|b| - 1];
      assert (a + b)[..|a + b| - 1] == a + b';
      assert (a + b)[|a + b| - 1] == b[|b| - 1];
      PassingAppend(a, b', analyze, score, minScore);
    }
  }

  /** Without a minimum nothing is kept. */
  lemma {:induction false} PassingWithoutMinimum<R>(codes: seq<string>, analyze: string -> Result<R>,
                                                   score: R -> int)
    ensures Passing(codes, analyze, score, None) == []
  {
    if codes != [] {
      PassingWithoutMinimum(codes[..|codes| - 1], analyze, score);
    }
  }

  /** The loop of the scans and of the batch endpoint: one pass over the
      codes, appending each kept report. */
  method CollectPassing<R>(codes: seq<string>, analyze: string -> Result<R>, score: R -> int,
                           minScore: Option<int>) returns (kept: seq<R>)
    ensures kept == Passing(codes, analyze, score, minScore)
  {
    kept := [];
    var i := 0;
    while i < |codes|
      invariant 0 <= i <= |codes|
      invariant kept == Passing(codes[..i], analyze, score, minScore)
    {
      var outcome := analyze(codes[i]);
      if outcome.Success? && minScore.Some? && score(outcome.value) >= minScore.value {
        kept := kept + [outcome.value];
      }
      assert codes[..i + 1][..i] == codes[..i];
      i := i + 1;
    }
    assert codes[..i] == codes;
  }

  // ---------------------------------------------------------------------
  // The stable sort, highest score first

  ghost predicate SortedDesc<R>(s: seq<R>, score: R -> int) {
    forall i, j :: 0 <= i < j < |s| ==> score(s[i]) >= score(s[j])
  }

  /** The elements of `s` with score `k`, in order. */
  function WithScore<R>(s: seq<R>, score: R -> int, k: int): seq<R> {
    if s == [] then []
    else (if score(s[0]) == k then [s[0]] else []) + WithScore(s[1..], score, k)
  }

  /** Places `x` after every element whose score is at least its own. */
  function Insert<R>(x: R, s: seq<R>, score: R -> int): (r: seq<R>)
    ensures |r| == |s| + 1
  {
    if s == [] then [x]
    else if score(s[0]) >= score(x) then [s[0]] + Insert(x, s[1..], score)
    else [x] + s
  }

  /** `sort(key=score, reverse=True)`: insertion of each element, from left
      to right, behind the elements of equal score already placed. */
  function SortDesc<R>(s: seq<R>, score: R -> int): (r: seq<R>)
    ensures |r| == |s|
  {
    if s == [] then []
    else Insert(s[|s| - 1], SortDesc(s[..|s| - 1], score), score)
  }

  ghost predicate AllAtMost<R>(s: seq<R>, score: R -> int, b: int) {
    forall i :: 0 <= i < |s| ==> score(s[i]) <= b
  }

  lemma SortedCons<R>(h: R, t: seq<R>, score: R -> int)
    requires SortedDesc(t, score) && AllAtMost(t, score, score(h))
    ensures SortedDesc([h] + t, score)
  {
    var s := [h] + t;
    forall i, j | 0 <= i < j < |s| ensures score(s[i]) >= score(s[j]) {
      assert s[j] == t[j - 1];
      if i > 0 { assert s[i] == t[i - 1]; }
    }
  }

  lemma {:induction false} InsertAtMost<R>(x: R, s: seq<R>, score: R -> int, b: int)
    requires AllAtMost(s, score, b) && score(x) <= b
    ensures AllAtMost(Insert(x, s, score), score, b)
  {
    if s != [] && score(s[0]) >= score(x) {
      InsertAtMost(x, s[1..], score, b);
      var t := Insert(x, s[1..], score);
      forall i | 0 <= i < |[s[0]] + t| ensures score(([s[0]] + t)[i]) <= b {
        if i > 0 { assert ([s[0]] + t)[i] == t[i - 1]; }
      }
    } else if s != [] {
      forall i | 0 <= i < |[x] + s| ensures score(([x] + s)[i]) <= b {
        if i > 0 { assert ([x] + s)[i] == s[i - 1]; }
      }
    }
  }

  lemma {:induction false} InsertSorted<R>(x: R, s: seq<R>, score: R -> int)
    requires SortedDesc(s, score)
    ensures SortedDesc(Insert(x, s, score), score)
  {
    if s != [] {
      if score(s[0]) >= score(x) {
        InsertSorted(x, s[1..], score);
        assert AllAtMost(s[1..], score, score(s[0])) by {
          forall i | 0 <= i < |s[1..]| ensures score(s[1..][i]) <= score(s[0]) {
            assert s[1..][i] == s[i + 1];
          }
        }
        InsertAtMost(x, s[1..], score, score(s[0]));
        SortedCons(s[0], Insert(x, s[1..], score), score);
      } else {
        SortedCons(x, s, score);
      }
    }
  }

  lemma {:induction false} InsertPerm<R>(x: R, s: seq<R>, score: R -> int)
    ensures multiset(Insert(x, s, score)) == multiset(s) + multiset{x}
    ensures |Insert(x, s, score)| == |s| + 1
  {
    if s != [] {
      if score(s[0]) >= score(x) {
        InsertPerm(x, s[1..], score);
        assert s == [s[0]] + s[1..];
        assert multiset(s) == multiset{s[0]} + multiset(s[1..]);
      } else {
        assert multiset([x] + s) == multiset{x} + multiset(s);
      }
    }
  }

  lemma {:induction false} WithScoreAppend<R>(a: seq<R>, b: seq<R>, score: R -> int, k: int)
    ensures WithScore(a + b, score, k) == WithScore(a, score, k) + WithScore(b, score, k)
  {
    if a != [] {
      assert (a + b)[1..] == a[1..] + b;
      WithScoreAppend(a[1..], b, score, k);
    } else {
      assert a + b == b;
    }
  }

  lemma {:induction false} WithScoreBelow<R>(s: seq<R>, score: R -> int, k: int)
    requires forall i :: 0 <= i < |s| ==> score(s[i]) < k
    ensures WithScore(s, score, k) == []
  {
    if s != [] {
      WithScoreBelow(s[1..], score, k);
    }
  }

  lemma SortedTail<R>(s: seq<R>, score: R -> int)
    requires s != [] && SortedDesc(s, score)
    ensures SortedDesc(s[1..], score)
    ensures AllAtMost(s, score, score(s[0]))
  {
    forall i, j | 0 <= i < j < |s[1..]| ensures score(s[1..][i]) >= score(s[1..][j]) {
      assert s[1..][i] == s[i + 1] && s[1..][j] == s[j + 1];
    }
  }

  lemma WithScoreCons<R>(h: R, t: seq<R>, score: R -> int, k: int)
    ensures WithScore([h] + t, score, k) == (if score(h) == k then [h] else []) + WithScore(t, score, k)
  {
    assert ([h] + t)[0] == h;
    assert ([h] + t)[1..] == t;
  }

  lemma {:induction false} InsertStable<R>(x: R, s: seq<R>, score: R -> int, k: int)
    requires SortedDesc(s, score)
    ensures WithScore(Insert(x, s, score), score, k)
            == WithScore(s, score, k) + (if score(x) == k then [x] else [])
  {
    var tail := if score(x) == k then [x] else [];
    if s == [] {
      WithScoreCons(x, [], score, k);
      assert [x] == [x] + [];
    } else if score(s[0]) >= score(x) {
      assert Insert(x, s, score) == [s[0]] + Insert(x, s[1..], score);
      assert SortedDesc(s[1..], score) by {
        SortedTail(s, score);
      }
      InsertStable(x, s[1..], score, k);
      var head := if score(s[0]) == k then [s[0]] else [];
      WithScoreCons(s[0], Insert(x, s[1..], score), score, k);
      assert s == [s[0]] + s[1..];
      WithScoreCons(s[0], s[1..], score, k);
      assert head + (WithScore(s[1..], score, k) + tail) == (head + WithScore(s[1..], score, k)) + tail;
    } else {
      SortedTail(s, score);
      WithScoreCons(x, s, score, k);
      if score(x) == k {
        WithScoreBelow(s, score, k);
      }
    }
  }

  /** The sort yields a non-increasing permutation of its input. */
  lemma {:induction false} SortDescCorrect<R>(s: seq<R>, score: R -> int)
    ensures SortedDesc(SortDesc(s, score), score)
    ensures multiset(SortDesc(s, score)) == multiset(s)
    ensures |SortDesc(s, score)| == |s|
  {
    if s != [] {
      var init := s[..|s| - 1];
      SortDescCorrect(init, score);
      InsertSorted(s[|s| - 1], SortDesc(init, score), score);
      InsertPerm(s[|s| - 1], SortDesc(init, score), score);
      assert s == init + [s[|s| - 1]];
      assert multiset(s) == multiset(init) + multiset{s[|s| - 1]};
    }
  }

  /** The sort is stable: the elements of each score keep their order. */
  lemma {:induction false} SortDescStable<R>(s: seq<R>, score: R -> int, k: int)
    ensures WithScore(SortDesc(s, score), score, k) == WithScore(s, score, k)
  {
    if s != [] {
      SortDescCorrect(s[..|s| - 1], score);
      SortDescStable(s[..|s| - 1], score, k);
      StableStep(s, score, k);
    }
  }

  /** The step of the proof above: inserting the last element keeps the
      order of each score, given that sorting the others does. */
  lemma StableStep<R>(s: seq<R>, score: R -> int, k: int)
    requires s != [] && SortedDesc(SortDesc(s[..|s| - 1], score), score)
    requires WithScore(SortDesc(s[..|s| - 1], score), score, k) == WithScore(s[..|s| - 1], score, k)
    ensures WithScore(SortDesc(s, score), score, k) == WithScore(s, score, k)
  {
    var init, last := s[..|s| - 1], s[|s| - 1];
    var tail := if score(last) == k then [last] else [];
    assert SortDesc(s, score) == Insert(last, SortDesc(init, score), score);
    InsertStable(last, SortDesc(init, score), score, k);
    assert WithScore(SortDesc(s, score), score, k) == WithScore(init, score, k) + tail;
    assert s == init + [last];
    WithScoreAppend(init, [last], score, k);
    assert WithScore([last], score, k) == tail by {
      WithScoreCons(last, [], score, k);
      assert [last] == [last] + [];
      assert tail + [] == tail;
    }
  }

  /** `scan_market` / `scan_futures_market` once the code list is known:
      filter in one pass, then sort in place, highest score first. */
  method ScanAndRank<R>(codes: seq<string>, analyze: string -> Result<R>, score: R -> int,
                        minScore: Option<int>) returns (recs: seq<R>)
    ensures recs == SortDesc(Passing(codes, analyze, score, minScore), score)
    ensures SortedDesc(recs, score)
    ensures multiset(recs) == multiset(Passing(codes, analyze, score, minScore))
    ensures forall k :: WithScore(recs, score, k) == WithScore(Passing(codes, analyze, score, minScore), score, k)
  {
    var kept := CollectPassing(codes, analyze, score, minScore);
    recs := SortDesc(kept, score);
    SortDescCorrect(kept, score);
    forall k ensures WithScore(recs, score, k) == WithScore(kept, score, k) {
      SortDescStable(kept, score, k);
    }
  }
}
