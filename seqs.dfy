/** Sequence operations shared by the modules: Python's `filter`, first-occurrence index and
    the key order of a dict built from a sequence. */
module Seqs {
  import opened Wrappers

  /** The elements of `s` that satisfy `p`, in their order in `s` (a materialised `filter`). */
  function Filter<T(==)>(s: seq<T>, p: T -> bool): (r: seq<T>)
    ensures |r| <= |s|
    ensures forall i :: 0 <= i < |r| ==> r[i] in s && p(r[i])
    ensures forall i :: 0 <= i < |s| && p(s[i]) ==> s[i] in r
    ensures |r| == |s| <==> forall i :: 0 <= i < |s| ==> p(s[i])
    ensures |r| == |s| ==> r == s
    decreases |s|
  {
    if s == [] then []
    else
      var rest := Filter(s[1..], p);
      if p(s[0]) then [s[0]] + rest
      else
        assert |rest| < |s|;
        rest
  }

  /** Filtering distributes over concatenation: the kept elements of `a` come first. */
  lemma {:induction false} FilterAppend<T>(a: seq<T>, b: seq<T>, p: T -> bool)
    ensures Filter(a + b, p) == Filter(a, p) + Filter(b, p)
    decreases |a|
  {
    if a == [] {
      assert a + b == b;
    } else {
      assert (a + b)[1..] == a[1..] + b;
      FilterAppend(a[1..], b, p);
    }
  }

  /** A single element is kept exactly when it is accepted. With `FilterAppend` this fixes the
      result of every call: the accepted elements, each where it stood, in their order in `s`. */
  lemma FilterSingle<T>(x: T, p: T -> bool)
    ensures Filter([x], p) == if p(x) then [x] else []
  {
    assert [x][1..] == [];
  }

  /** The index of the first occurrence of `x` in `s`. */
  function IndexOf<T(==)>(s: seq<T>, x: T): (r: Option<nat>)
    ensures r.None? <==> x !in s
    ensures r.Some? ==> r.value < |s| && s[r.value] == x && x !in s[..r.value]
    decreases |s|
  {
    if s == [] then None
    else if s[0] == x then Some(0)
    else match IndexOf(s[1..], x)
      case None => None
      case Some(i) =>
        assert s[..i + 1] == [s[0]] + s[1..][..i];
        Some(i + 1)
  }

  /** The first occurrence of `x` after an `x`-free prefix is right after that prefix. */
  lemma {:induction false} IndexOfAfter<T>(a: seq<T>, x: T, b: seq<T>)
    requires x !in a
    ensures IndexOf(a + [x] + b, x) == Some(|a|)
    decreases |a|
  {
    var s := a + [x] + b;
    if a != [] {
      assert s[0] == a[0] != x;
      assert s[1..] == a[1..] + [x] + b;
      IndexOfAfter(a[1..], x, b);
    }
  }

  /** `x` occurs in `s`, and for the first time before `y` does. */
  ghost predicate Before<T>(s: seq<T>, x: T, y: T)
  {
    IndexOf(s, x).Some? && IndexOf(s, y).Some? && IndexOf(s, x).value < IndexOf(s, y).value
  }

  /** The elements of `r` occur in `s`, listed in the order of their first occurrence in `s`. */
  ghost predicate InFirstOccurrenceOrder<T(!new)>(r: seq<T>, s: seq<T>)
  {
    (forall x :: x in r ==> x in s) &&
    forall i, j :: 0 <= i < j < |r| ==> Before(s, r[i], r[j])
  }

  /** The distinct elements of `s`, each at its first occurrence: the key order of the dict
      `{x: ... for x in s}`. */
  function Distinct<T(==,!new)>(s: seq<T>): (r: seq<T>)
    ensures forall x :: x in r <==> x in s
    ensures forall i, j :: 0 <= i < j < |r| ==> r[i] != r[j]
    decreases |s|
  {
    if s == [] then []
    else
      var init := s[..|s| - 1];
      var last := s[|s| - 1];
      assert s == init + [last];
      if last in init then Distinct(init) else Distinct(init) + [last]
  }

  /** `Distinct` lists the elements in the order of their first occurrence. */
  lemma {:induction false} DistinctOrder<T(!new)>(s: seq<T>)
    ensures InFirstOccurrenceOrder(Distinct(s), s)
    decreases |s|
  {
    if s != [] {
      var init := s[..|s| - 1];
      var last := s[|s| - 1];
      var d := Distinct(init);
      DistinctOrder(init);
      PrefixKeepsFirstIndexes(s, |s| - 1);
      assert s == init + [last];
      if last !in init {
        var r := d + [last];
        assert IndexOf(s, last) == Some(|s| - 1);
        forall i, j | 0 <= i < j < |r| ensures Before(s, r[i], r[j]) {
          assert r[i] == d[i] && r[i] in init;
          if j < |d| {
            assert r[j] == d[j] && Before(init, d[i], d[j]);
          }
        }
      }
    }
  }

  /** An element occurring in the first `k` places keeps its first index in the prefix. */
  lemma PrefixKeepsFirstIndexes<T>(s: seq<T>, k: nat)
    requires k <= |s|
    ensures forall x :: x in s[..k] ==> IndexOf(s, x) == IndexOf(s[..k], x)
  {
    forall x | x in s[..k]
      ensures IndexOf(s, x) == IndexOf(s[..k], x)
    {
      var i := IndexOf(s[..k], x).value;
      var j := IndexOf(s, x).value;
      assert s[..k][..i] == s[..i];
      assert j <= i by {
        assert forall m :: 0 <= m < i ==> s[..i][m] == s[m];
      }
      assert i <= j by {
        assert forall m :: 0 <= m < j ==> s[..j][m] == s[m];
      }
    }
  }

  /** Dropping the head keeps the order, and the head comes before everything after it. */
  lemma OrderTail<T(!new)>(r: seq<T>, s: seq<T>)
    requires r != [] && InFirstOccurrenceOrder(r, s)
    ensures InFirstOccurrenceOrder(r[1..], s)
    ensures forall y :: y in r[1..] ==> Before(s, r[0], y)
  {
    var tail := r[1..];
    assert forall i, j :: 0 <= i < j < |tail| ==> tail[i] == r[i + 1] && tail[j] == r[j + 1];
    forall y | y in tail ensures y in s && Before(s, r[0], y) {
      var k :| 0 <= k < |tail| && tail[k] == y;
      assert r[k + 1] == y;
    }
  }

  /** Filtering keeps the first-occurrence order of what remains. */
  lemma {:induction false} FilterKeepsOrder<T(!new)>(r: seq<T>, s: seq<T>, p: T -> bool)
    requires InFirstOccurrenceOrder(r, s)
    ensures InFirstOccurrenceOrder(Filter(r, p), s)
    decreases |r|
  {
    if r != [] {
      OrderTail(r, s);
      FilterKeepsOrder(r[1..], s, p);
      var ft := Filter(r[1..], p);
      if p(r[0]) {
        var f := [r[0]] + ft;
        forall i, j | 0 <= i < j < |f| ensures Before(s, f[i], f[j]) {
          assert f[j] == ft[j - 1];
          if i > 0 {
            assert f[i] == ft[i - 1];
          }
        }
      }
    }
  }

  /** No element occurs twice. */
  ghost predicate NoDuplicates<T>(s: seq<T>)
  {
    forall i, j :: 0 <= i < j < |s| ==> s[i] != s[j]
  }

  /** Filtering a list without repetitions gives a list without repetitions. */
  lemma {:induction false} FilterNoDuplicates<T>(s: seq<T>, p: T -> bool)
    requires NoDuplicates(s)
    ensures NoDuplicates(Filter(s, p))
    decreases |s|
  {
    if s != [] {
      var tail := s[1..];
      assert NoDuplicates(tail) by {
        forall i, j | 0 <= i < j < |tail| ensures tail[i] != tail[j] {
          assert tail[i] == s[i + 1] && tail[j] == s[j + 1];
        }
      }
      FilterNoDuplicates(tail, p);
      var ft := Filter(tail, p);
      if p(s[0]) {
        assert s[0] !in tail by {
          forall k | 0 <= k < |tail| ensures tail[k] != s[0] {
            assert tail[k] == s[k + 1];
          }
        }
        var r := [s[0]] + ft;
        assert Filter(s, p) == r;
        forall i, j | 0 <= i < j < |r| ensures r[i] != r[j] {
          assert r[j] == ft[j - 1] && ft[j - 1] in ft && ft[j - 1] in tail;
          if i > 0 {
            assert r[i] == ft[i - 1];
          }
        }
      } else {
        assert Filter(s, p) == ft;
      }
    }
  }
}
