/** `Array.prototype.sort` with a comparator `(a, b) => score(b) - score(a)`:
    a stable sort, largest score first, entries of equal score kept in their
    original order. Every ranking the engine shows goes through it. */
module Sorting {
  import opened Common

  /** `s` is ordered by `score`, largest first. */
  predicate Descending<T>(s: seq<T>, score: T -> int) {
    forall i, j :: 0 <= i < j < |s| ==> score(s[i]) >= score(s[j])
  }

  /** Places `x` before the first entry of smaller score, so after every
      entry of equal score. */
  function InsertBy<T>(x: T, s: seq<T>, score: T -> int): (r: seq<T>)
    ensures multiset(r) == multiset(s) + multiset{x}
  {
    if |s| == 0 || score(s[0]) < score(x) then [x] + s
    else
      assert s == [s[0]] + s[1..];
      [s[0]] + InsertBy(x, s[1..], score)
  }

  /** The stable sort, as an insertion sort taking the entries in order. */
  function SortBy<T>(s: seq<T>, score: T -> int): (r: seq<T>)
    ensures multiset(r) == multiset(s)
  {
    if |s| == 0 then []
    else
      assert s == s[..|s| - 1] + [s[|s| - 1]];
      InsertBy(s[|s| - 1], SortBy(s[..|s| - 1], score), score)
  }

  /** Inserting `x` into entries whose scores are bounded by `b` keeps them
      bounded when `x`'s is. */
  lemma InsertByBounded<T>(x: T, s: seq<T>, score: T -> int, b: int)
    requires score(x) <= b
    requires forall j :: 0 <= j < |s| ==> score(s[j]) <= b
    ensures forall j :: 0 <= j < |InsertBy(x, s, score)| ==> score(InsertBy(x, s, score)[j]) <= b
  {
    var t := InsertBy(x, s, score);
    forall j | 0 <= j < |t| ensures score(t[j]) <= b {
      assert t[j] in multiset(s) + multiset{x};
    }
  }

  lemma {:induction false} InsertBySorted<T>(x: T, s: seq<T>, score: T -> int)
    requires Descending(s, score)
    ensures Descending(InsertBy(x, s, score), score)
  {
    if |s| > 0 && score(s[0]) >= score(x) {
      InsertBySorted(x, s[1..], score);
      InsertByBounded(x, s[1..], score, score(s[0]));
    }
  }

  /** The sort yields a descending list holding exactly the entries it was
      given, as many times as it was given them. */
  lemma {:induction false} SortBySorted<T>(s: seq<T>, score: T -> int)
    ensures Descending(SortBy(s, score), score)
    ensures |SortBy(s, score)| == |s|
    ensures forall e :: e in SortBy(s, score) <==> e in s
  {
    var r := SortBy(s, score);
    if |s| > 0 {
      SortBySorted(s[..|s| - 1], score);
      InsertBySorted(s[|s| - 1], SortBy(s[..|s| - 1], score), score);
    }
    assert |multiset(r)| == |multiset(s)|;
    forall e ensures e in r <==> e in s {
      assert e in r <==> e in multiset(r);
      assert e in s <==> e in multiset(s);
    }
  }

  /** In a descending list, an entry at or after position `n` scores no
      more than any entry before it. */
  lemma BelowPrefix<T>(sorted: seq<T>, score: T -> int, n: nat, j: nat)
    requires Descending(sorted, score)
    requires n <= j < |sorted|
    ensures forall e :: e in sorted[..n] ==> score(sorted[j]) <= score(e)
  {
    forall e | e in sorted[..n] ensures score(sorted[j]) <= score(e) {
      var l :| 0 <= l < n && sorted[..n][l] == e;
      assert sorted[l] == e;
    }
  }

  /** The position of the first entry of largest score: an independent
      description of what a stable descending sort puts first. */
  function FirstBest<T>(s: seq<T>, score: T -> int): (i: nat)
    requires |s| > 0
    ensures i < |s|
    ensures forall j :: 0 <= j < |s| ==> score(s[j]) <= score(s[i])
    ensures forall j :: 0 <= j < i ==> score(s[j]) < score(s[i])
  {
    if |s| == 1 then 0
    else
      var p := s[..|s| - 1];
      var i := FirstBest(p, score);
      assert forall j :: 0 <= j < |p| ==> s[j] == p[j];
      if score(p[i]) < score(s[|s| - 1]) then |s| - 1 else i
  }

  /** A stable descending sort starts with the first entry of largest
      score. */
  lemma {:induction false} SortByHead<T>(s: seq<T>, score: T -> int)
    requires |s| > 0
    ensures |SortBy(s, score)| > 0
    ensures SortBy(s, score)[0] == s[FirstBest(s, score)]
  {
    var p := s[..|s| - 1];
    var x := s[|s| - 1];
    if |s| == 1 {
      assert SortBy(p, score) == [];
    } else {
      SortByHead(p, score);
      assert p[FirstBest(p, score)] == s[FirstBest(p, score)];
    }
  }

  /** Inserting a new entry into a list without repeats leaves none. */
  lemma {:induction false} InsertByNoDups<T>(x: T, s: seq<T>, score: T -> int)
    requires NoDups(s) && x !in s
    ensures NoDups(InsertBy(x, s, score))
  {
    if |s| > 0 && score(s[0]) >= score(x) {
      var t := s[1..];
      assert NoDups(t);
      InsertByNoDups(x, t, score);
      var r := InsertBy(x, t, score);
      assert s[0] !in t by {
        forall j | 0 <= j < |t| ensures t[j] != s[0] {
          assert t[j] == s[j + 1];
        }
      }
      assert s[0] != x by {
        assert s[0] in s;
      }
      assert s[0] !in multiset(r);
      forall i, j | 0 <= i < j < |[s[0]] + r| ensures ([s[0]] + r)[i] != ([s[0]] + r)[j] {
        if i == 0 {
          assert ([s[0]] + r)[j] == r[j - 1];
        } else {
          assert ([s[0]] + r)[i] == r[i - 1];
          assert ([s[0]] + r)[j] == r[j - 1];
        }
      }
    }
  }

  /** Sorting a list without repeats leaves none. */
  lemma {:induction false} SortByNoDups<T>(s: seq<T>, score: T -> int)
    requires NoDups(s)
    ensures NoDups(SortBy(s, score))
  {
    if |s| > 0 {
      var p := s[..|s| - 1];
      var x := s[|s| - 1];
      assert NoDups(p);
      SortByNoDups(p, score);
      SortBySorted(p, score);
      assert x !in p by {
        forall j | 0 <= j < |p| ensures p[j] != x {
          assert p[j] == s[j];
        }
      }
      InsertByNoDups(x, SortBy(p, score), score);
    }
  }
}
