/** The last step of the keyword relevance ranking: the (term, score) pairs are sorted by
    descending score, keeping the vocabulary order among equal scores, and cut to the first ten.
    The scores themselves are an input. */
module TermRanking {
  import opened Seqs

  datatype TermScore = TermScore(term: string, score: real)

  /** How many ranked terms the report keeps. */
  const TopCount := 10

  predicate SortedDesc(s: seq<TermScore>) {
    forall i, j :: 0 <= i < j < |s| ==> s[i].score >= s[j].score
  }

  function HasScore(v: real): TermScore -> bool {
    (t: TermScore) => t.score == v
  }

  /** Where `x` goes when it is moved towards the front of `t` past every pair of lower score:
      right after the last pair whose score is at least its own. */
  function BackPos(t: seq<TermScore>, x: TermScore): (j: nat)
    ensures j <= |t|
    ensures j == 0 || t[j - 1].score >= x.score
    ensures forall k :: j <= k < |t| ==> t[k].score < x.score
    decreases |t|
  {
    if t == [] || t[|t| - 1].score >= x.score then |t| else BackPos(t[..|t| - 1], x)
  }

  /** `x` inserted into `t` at `BackPos(t, x)`. */
  function InsertBack(t: seq<TermScore>, x: TermScore): (r: seq<TermScore>)
    ensures |r| == |t| + 1
  {
    var j := BackPos(t, x);
    t[..j] + [x] + t[j..]
  }

  lemma {:induction false} InsertBackPerm(t: seq<TermScore>, x: TermScore)
    ensures multiset(InsertBack(t, x)) == multiset(t) + multiset{x}
  {
    var j := BackPos(t, x);
    SplitAt(t, j);
  }

  /** The reference sort: insertion of each pair, in input order, into the sorted prefix. */
  function StableSortDesc(s: seq<TermScore>): (r: seq<TermScore>)
    ensures |r| == |s|
    decreases |s|
  {
    if s == [] then [] else InsertBack(StableSortDesc(s[..|s| - 1]), s[|s| - 1])
  }

  lemma {:induction false} StableSortSnoc(s: seq<TermScore>, x: TermScore)
    ensures StableSortDesc(s + [x]) == InsertBack(StableSortDesc(s), x)
  {
  }

  /** The sort rearranges its input: it neither loses nor invents a pair. */
  lemma {:induction false} StableSortPerm(s: seq<TermScore>)
    ensures multiset(StableSortDesc(s)) == multiset(s)
    decreases |s|
  {
    if s != [] {
      var front := s[..|s| - 1];
      StableSortPerm(front);
      InsertBackPerm(StableSortDesc(front), s[|s| - 1]);
      assert s == front + [s[|s| - 1]];
    }
  }

  /** Inserting into a descending list keeps it descending. */
  lemma {:induction false} InsertBackSorted(t: seq<TermScore>, x: TermScore)
    requires SortedDesc(t)
    ensures SortedDesc(InsertBack(t, x))
  {
  }

  /** Among pairs of one score, insertion keeps the old ones first and adds `x` last. */
  lemma {:induction false} InsertBackStable(t: seq<TermScore>, x: TermScore, v: real)
    ensures Filter(InsertBack(t, x), HasScore(v)) == Filter(t, HasScore(v)) + (if x.score == v then [x] else [])
  {
    var j := BackPos(t, x);
    var front, back := t[..j], t[j..];
    assert InsertBack(t, x) == front + [x] + back;
    FilterAround(front, x, back, HasScore(v));
    assert t == front + back;
    FilterAppend(front, back, HasScore(v));
    var kept, rest := Filter(front, HasScore(v)), Filter(back, HasScore(v));
    if x.score == v {
      BackAllBelow(t, x, v);
      assert kept + [x] + rest == kept + [x] && kept + rest == kept;
    } else {
      assert kept + [] + rest == kept + rest;
    }
  }

  /** Every pair behind the insertion point scores below `x`, so none has `x`'s score. */
  lemma {:induction false} BackAllBelow(t: seq<TermScore>, x: TermScore, v: real)
    requires x.score == v
    ensures Filter(t[BackPos(t, x)..], HasScore(v)) == []
  {
    var j := BackPos(t, x);
    var back := t[j..];
    forall k | 0 <= k < |back| ensures !HasScore(v)(back[k]) {
      assert back[k] == t[j + k];
    }
    FilterNone(back, HasScore(v));
  }

  lemma {:induction false} StableSortSorted(s: seq<TermScore>)
    ensures SortedDesc(StableSortDesc(s))
    decreases |s|
  {
    if s != [] {
      StableSortSorted(s[..|s| - 1]);
      InsertBackSorted(StableSortDesc(s[..|s| - 1]), s[|s| - 1]);
    }
  }

  /** Pairs with equal scores keep their input order. */
  lemma {:induction false} StableSortStable(s: seq<TermScore>, v: real)
    ensures Filter(StableSortDesc(s), HasScore(v)) == Filter(s, HasScore(v))
    decreases |s|
  {
    if s != [] {
      var front, last := s[..|s| - 1], s[|s| - 1];
      StableSortStable(front, v);
      InsertBackStable(StableSortDesc(front), last, v);
      assert s == front + [last];
      FilterSnoc(front, last, HasScore(v));
    }
  }

  lemma {:induction false} SortedHeadIsMax(t: seq<TermScore>, x: TermScore)
    requires SortedDesc(t) && x in t
    ensures t[0].score >= x.score
  {
  }

  lemma {:induction false} FilterHead(t: seq<TermScore>, w: real)
    requires t != []
    ensures Filter(t, HasScore(w)) == (if t[0].score == w then [t[0]] else []) + Filter(t[1..], HasScore(w))
  {
  }

  lemma {:induction false} GroupHeadInSeq(t: seq<TermScore>, w: real)
    requires Filter(t, HasScore(w)) != []
    ensures Filter(t, HasScore(w))[0] in t && Filter(t, HasScore(w))[0].score == w
  {
    FilterMembers(t, HasScore(w));
    assert Filter(t, HasScore(w))[0] in Filter(t, HasScore(w));
  }

  /** Two descending sequences that list the pairs of every score in the same order are equal. */
  lemma {:induction false} SortedGroupsDetermine(t1: seq<TermScore>, t2: seq<TermScore>)
    requires SortedDesc(t1) && SortedDesc(t2)
    requires forall v :: Filter(t1, HasScore(v)) == Filter(t2, HasScore(v))
    ensures t1 == t2
    decreases |t1| + |t2|
  {
    if t1 == [] && t2 == [] {
    } else if t1 == [] {
      FilterHead(t2, t2[0].score);
    } else if t2 == [] {
      FilterHead(t1, t1[0].score);
    } else {
      var a, b := t1[0], t2[0];
      FilterHead(t1, a.score);
      assert Filter(t2, HasScore(a.score)) == Filter(t1, HasScore(a.score));
      GroupHeadInSeq(t2, a.score);
      SortedHeadIsMax(t2, Filter(t2, HasScore(a.score))[0]);
      FilterHead(t2, b.score);
      assert Filter(t1, HasScore(b.score)) == Filter(t2, HasScore(b.score));
      GroupHeadInSeq(t1, b.score);
      SortedHeadIsMax(t1, Filter(t1, HasScore(b.score))[0]);
      assert a.score == b.score;
      assert Filter(t1, HasScore(a.score))[0] == a;
      assert Filter(t2, HasScore(a.score))[0] == b;
      forall w ensures Filter(t1[1..], HasScore(w)) == Filter(t2[1..], HasScore(w)) {
        FilterHead(t1, w);
        FilterHead(t2, w);
        var pre := if a.score == w then [a] else [];
        assert Filter(t1[1..], HasScore(w)) == Filter(t1, HasScore(w))[|pre|..];
        assert Filter(t2[1..], HasScore(w)) == Filter(t2, HasScore(w))[|pre|..];
      }
      SortedGroupsDetermine(t1[1..], t2[1..]);
    }
  }

  /** The stable descending sort is unique: any descending arrangement that keeps the input order
      among equal scores is `StableSortDesc`, whatever algorithm produced it. */
  lemma {:induction false} StableSortUnique(s: seq<TermScore>, t: seq<TermScore>)
    requires SortedDesc(t)
    requires forall v :: Filter(t, HasScore(v)) == Filter(s, HasScore(v))
    ensures t == StableSortDesc(s)
  {
    StableSortSorted(s);
    forall v ensures Filter(t, HasScore(v)) == Filter(StableSortDesc(s), HasScore(v)) {
      StableSortStable(s, v);
    }
    SortedGroupsDetermine(t, StableSortDesc(s));
  }

  /** One step of the insertion sort: `a[i]` moved left past every element of lower score. */
  method InsertAt(a: array<TermScore>, i: nat)
    requires i < a.Length
    modifies a
    ensures a[..i + 1] == InsertBack(old(a[..i]), old(a[i]))
    ensures forall k :: i < k < a.Length ==> a[k] == old(a[k])
  {
    ghost var t := a[..i];
    var x := a[i];
    var j := i;
    while j > 0 && a[j - 1].score < x.score
      invariant 0 <= j <= i
      invariant forall k :: 0 <= k < j ==> a[k] == t[k]
      invariant forall k :: j < k <= i ==> a[k] == t[k - 1]
      invariant forall k :: j <= k < i ==> t[k].score < x.score
      invariant forall k :: i < k < a.Length ==> a[k] == old(a[k])
    {
      a[j] := a[j - 1];
      j := j - 1;
    }
    a[j] := x;
    InsertBackPointwise(t, x, j, a[..i + 1]);
  }

  /** A sequence that holds `t`'s pairs before `j`, then `x`, then the rest of `t`, where `j` is a
      position the back-to-front walk can stop at, is `InsertBack(t, x)`. */
  lemma {:induction false} InsertBackPointwise(t: seq<TermScore>, x: TermScore, j: nat, r: seq<TermScore>)
    requires j <= |t| && |r| == |t| + 1
    requires j == 0 || t[j - 1].score >= x.score
    requires forall k :: j <= k < |t| ==> t[k].score < x.score
    requires forall k :: 0 <= k < j ==> r[k] == t[k]
    requires r[j] == x
    requires forall k :: j < k <= |t| ==> r[k] == t[k - 1]
    ensures r == InsertBack(t, x)
  {
  }

  /** `word_scores.sort(key=lambda x: x[1], reverse=True)`, as an insertion sort in place. */
  method SortByScoreDesc(a: array<TermScore>)
    modifies a
    ensures a[..] == StableSortDesc(old(a[..]))
  {
    ghost var input := a[..];
    var i := 0;
    while i < a.Length
      invariant 0 <= i <= a.Length
      invariant a[..i] == StableSortDesc(input[..i])
      invariant forall k :: i <= k < a.Length ==> a[k] == input[k]
    {
      InsertAt(a, i);
      assert input[..i + 1] == input[..i] + [input[i]];
      StableSortSnoc(input[..i], input[i]);
      i := i + 1;
    }
    assert a[..] == a[..a.Length] && input[..a.Length] == input;
  }

  function Min(a: int, b: int): int {
    if a <= b then a else b
  }

  /** The (term, score) pairs in vocabulary order: `[(feature_names[i], dense[i]) for i in ...]`. */
  function WordScores(featureNames: seq<string>, dense: seq<real>): (ws: seq<TermScore>)
    requires |featureNames| <= |dense|
    ensures |ws| == |featureNames|
  {
    seq(|featureNames|, i requires 0 <= i < |featureNames| => TermScore(featureNames[i], dense[i]))
  }

  /** The first ten pairs of the stable descending sort. */
  function TopTen(s: seq<TermScore>): seq<TermScore> {
    StableSortDesc(s)[..Min(TopCount, |s|)]
  }

  /** The ranking step of `analyze_tfidf`: pair up, sort in place, keep the first ten. */
  method TopTerms(featureNames: seq<string>, dense: seq<real>) returns (top: seq<TermScore>)
    requires |featureNames| <= |dense|
    ensures top == TopTen(WordScores(featureNames, dense))
  {
    var n := |featureNames|;
    var wordScores := new TermScore[n](i requires 0 <= i < n => TermScore(featureNames[i], dense[i]));
    assert wordScores[..] == WordScores(featureNames, dense);
    SortByScoreDesc(wordScores);
    top := wordScores[..Min(TopCount, n)];
  }

  lemma {:induction false} SplitAt<T>(t: seq<T>, m: nat)
    requires m <= |t|
    ensures t == t[..m] + t[m..]
    ensures multiset(t) == multiset(t[..m]) + multiset(t[m..])
  {
  }

  lemma {:induction false} TopTenSplit(s: seq<TermScore>)
    ensures StableSortDesc(s) == TopTen(s) + StableSortDesc(s)[Min(TopCount, |s|)..]
    ensures multiset(s) == multiset(TopTen(s)) + multiset(StableSortDesc(s)[Min(TopCount, |s|)..])
  {
    SplitAt(StableSortDesc(s), Min(TopCount, |s|));
    StableSortPerm(s);
  }

  /** At most ten pairs, in non-increasing score order, each of them an input pair. */
  lemma {:induction false} TopTenShape(s: seq<TermScore>)
    ensures |TopTen(s)| == Min(TopCount, |s|)
    ensures SortedDesc(TopTen(s))
    ensures multiset(TopTen(s)) <= multiset(s)
    ensures forall x :: x in TopTen(s) ==> x in s
  {
    StableSortSorted(s);
    TopTenSplit(s);
    forall x | x in TopTen(s) ensures x in s {
      assert x in multiset(TopTen(s));
    }
  }

  /** In a descending sequence, nothing behind position `m` scores above anything before it. */
  lemma {:induction false} SortedCut(t: seq<TermScore>, m: nat)
    requires SortedDesc(t) && m <= |t|
    ensures forall x, k :: x in t[m..] && 0 <= k < m ==> x.score <= t[k].score
  {
  }

  /** No pair left out of the ten scores above a pair that was kept. */
  lemma {:induction false} TopTenHighest(s: seq<TermScore>)
    ensures forall x, k :: x in multiset(s) - multiset(TopTen(s)) && 0 <= k < |TopTen(s)| ==>
              x.score <= TopTen(s)[k].score
  {
    var sorted := StableSortDesc(s);
    var m := Min(TopCount, |s|);
    StableSortSorted(s);
    TopTenSplit(s);
    SortedCut(sorted, m);
    forall x | x in multiset(s) - multiset(TopTen(s)) ensures x in sorted[m..] {
      assert x in multiset(sorted[m..]);
    }
  }

  /** Among pairs of equal score, the ten kept are the first ones of the input, in input order. */
  lemma {:induction false} TopTenStable(s: seq<TermScore>, v: real)
    ensures Filter(TopTen(s), HasScore(v)) <= Filter(s, HasScore(v))
  {
    TopTenSplit(s);
    FilterAppend(TopTen(s), StableSortDesc(s)[Min(TopCount, |s|)..], HasScore(v));
    StableSortStable(s, v);
  }
}
