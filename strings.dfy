/** Python's `str.split(sep)` for a one-character separator and `sep.join(parts)`, with the
    facts the path and key builders rely on. */
module Strings {
  import opened Seqs

  /** `s.split(sep)`: the pieces between separators, always at least one (''.split('/') == ['']). */
  function Split(s: string, sep: char): (r: seq<string>)
    ensures |r| >= 1
    ensures forall i :: 0 <= i < |r| ==> sep !in r[i]
    decreases |s|
  {
    if s == [] then [""]
    else
      var rest := Split(s[1..], sep);
      if s[0] == sep then [""] + rest
      else [[s[0]] + rest[0]] + rest[1..]
  }

  /** `sep.join(parts)`. */
  function Join(parts: seq<string>, sep: string): string
    decreases |parts|
  {
    if |parts| == 0 then ""
    else if |parts| == 1 then parts[0]
    else parts[0] + sep + Join(parts[1..], sep)
  }

  /** The pieces that are not empty, in order (`[p for p in parts if p]`). */
  function NonEmpty(parts: seq<string>): seq<string>
  {
    Filter(parts, (p: string) => p != "")
  }

  predicate StartsWith(s: string, prefix: string)
  {
    |prefix| <= |s| && s[..|prefix|] == prefix
  }

  predicate EndsWith(s: string, suffix: string)
  {
    |suffix| <= |s| && s[|s| - |suffix|..] == suffix
  }

  /** Joining the pieces of a split with the same separator gives the string back. */
  lemma {:induction false} JoinSplit(s: string, sep: char)
    ensures Join(Split(s, sep), [sep]) == s
    decreases |s|
  {
    if s != [] {
      var rest := Split(s[1..], sep);
      JoinSplit(s[1..], sep);
      if s[0] != sep {
        if |rest| > 1 {
          assert ([[s[0]] + rest[0]] + rest[1..])[1..] == rest[1..];
        }
      }
    }
  }

  /** A separator after a separator-free prefix splits off exactly that prefix. */
  lemma {:induction false} SplitAfter(a: string, sep: char, b: string)
    requires sep !in a
    ensures Split(a + [sep] + b, sep) == [a] + Split(b, sep)
    decreases |a|
  {
    if a == [] {
      assert ([sep] + b)[1..] == b;
    } else {
      var s := a + [sep] + b;
      assert s[0] == a[0] != sep;
      assert s[1..] == a[1..] + [sep] + b;
      SplitAfter(a[1..], sep, b);
      assert [a[0]] + a[1..] == a;
    }
  }

  /** A string without the separator is its own single piece. */
  lemma {:induction false} SplitWithout(a: string, sep: char)
    requires sep !in a
    ensures Split(a, sep) == [a]
    decreases |a|
  {
    if a != [] {
      assert a[0] != sep;
      SplitWithout(a[1..], sep);
      assert [a[0]] + a[1..] == a;
    }
  }

  /** Splitting a join of separator-free pieces gives the pieces back. */
  lemma {:induction false} SplitJoin(parts: seq<string>, sep: char)
    requires |parts| >= 1
    requires forall i :: 0 <= i < |parts| ==> sep !in parts[i]
    ensures Split(Join(parts, [sep]), sep) == parts
    decreases |parts|
  {
    if |parts| == 1 {
      SplitWithout(parts[0], sep);
    } else {
      SplitJoin(parts[1..], sep);
      SplitAfter(parts[0], sep, Join(parts[1..], [sep]));
    }
  }

  /** The characters at `i` and `i + 1`. */
  function Adjacent(s: string, i: nat): (char, char)
    requires i + 1 < |s|
  {
    (s[i], s[i + 1])
  }

  /** Joining non-empty, separator-free pieces never puts the separator first, last or twice in
      a row. */
  lemma {:induction false} JoinShape(parts: seq<string>, c: char)
    requires |parts| >= 1
    requires forall i :: 0 <= i < |parts| ==> parts[i] != "" && c !in parts[i]
    ensures var r := Join(parts, [c]);
      && r != [] && r[0] == parts[0][0] && r[0] != c && r[|r| - 1] != c
      && forall i :: 0 <= i < |r| - 1 ==> Adjacent(r, i) != (c, c)
    decreases |parts|
  {
    var r := Join(parts, [c]);
    if |parts| > 1 {
      var p0 := parts[0];
      var rest := Join(parts[1..], [c]);
      JoinShape(parts[1..], c);
      assert r == p0 + [c] + rest;
      forall i | 0 <= i < |r| - 1
        ensures Adjacent(r, i) != (c, c)
      {
        if i < |p0| {
          assert r[i] == p0[i];
        } else if i == |p0| {
          assert r[i + 1] == rest[0];
        } else {
          assert r[i] == rest[i - |p0| - 1];
          assert r[i + 1] == rest[i - |p0|];
          assert Adjacent(rest, i - |p0| - 1) != (c, c);
        }
      }
    } else {
      assert r == parts[0];
    }
  }

  /** Dropping empty pieces distributes over concatenation. */
  lemma NonEmptyAppend(a: seq<string>, b: seq<string>)
    ensures NonEmpty(a + b) == NonEmpty(a) + NonEmpty(b)
  {
    FilterAppend(a, b, (p: string) => p != "");
  }
}
