/**
 * Dot-separated identifiers as Python's `str.split(".")` sees them.
 *
 * Every table and dataset reference in the tool is a string such as
 * `table`, `dataset.table` or `project.dataset.table`, and every decision
 * about it is taken on the pieces `split(".")` returns. Python's split with
 * an explicit separator always returns at least one piece and keeps empty
 * pieces: `"".split(".") == [""]`, `"a..b".split(".") == ["a", "", "b"]`.
 */
module Segments {

  /** `s.split(".")`. */
  function Split(s: string): (r: seq<string>)
    ensures |r| >= 1
    ensures forall i :: 0 <= i < |r| ==> '.' !in r[i]
    decreases |s|
  {
    if s == [] then [""]
    else
      var rest := Split(s[1..]);
      if s[0] == '.' then [""] + rest
      else [[s[0]] + rest[0]] + rest[1..]
  }

  /** `".".join(parts)`: the reference definition Split is checked against. */
  function Join(parts: seq<string>): string
    decreases |parts|
  {
    if parts == [] then ""
    else if |parts| == 1 then parts[0]
    else parts[0] + "." + Join(parts[1..])
  }

  /** The number of dots in `s`. */
  function Dots(s: string): nat
  {
    multiset(s)['.']
  }

  /** True when no segment of `parts` contains a dot. */
  predicate DotFree(parts: seq<string>)
  {
    forall i :: 0 <= i < |parts| ==> '.' !in parts[i]
  }

  /** A string without a dot is a single segment, unchanged. */
  lemma {:induction false} SplitWithoutDot(s: string)
    requires '.' !in s
    ensures Split(s) == [s]
    decreases |s|
  {
    if s != [] {
      SplitWithoutDot(s[1..]);
      assert [s[0]] + s[1..] == s;
    }
  }

  /** Splitting at a dot splits both sides independently. */
  lemma {:induction false} SplitDotted(a: string, b: string)
    ensures Split(a + "." + b) == Split(a) + Split(b)
    decreases |a|
  {
    if a == [] {
      assert a + "." + b == "." + b;
      assert ("." + b)[1..] == b;
    } else {
      var s := a + "." + b;
      assert s[0] == a[0];
      assert s[1..] == a[1..] + "." + b;
      SplitDotted(a[1..], b);
    }
  }

  /** Joining the pieces of a split gives back the string: no character is lost. */
  lemma {:induction false} JoinSplit(s: string)
    ensures Join(Split(s)) == s
    decreases |s|
  {
    if s != [] {
      var rest := Split(s[1..]);
      JoinSplit(s[1..]);
      if s[0] == '.' {
        assert Split(s) == [""] + rest;
        assert ([""] + rest)[1..] == rest;
        assert Join(Split(s)) == "" + "." + Join(rest);
        assert s == "." + s[1..];
      } else {
        var first := [s[0]] + rest[0];
        assert Split(s) == [first] + rest[1..];
        if |rest| == 1 {
          assert Join(Split(s)) == first;
          assert Join(rest) == rest[0];
        } else {
          assert ([first] + rest[1..])[1..] == rest[1..];
          assert Join(Split(s)) == first + "." + Join(rest[1..]);
          assert Join(rest) == rest[0] + "." + Join(rest[1..]);
        }
        assert s == [s[0]] + s[1..];
      }
    }
  }

  /** Splitting a join of dot-free pieces gives back the pieces. */
  lemma {:induction false} SplitJoin(parts: seq<string>)
    requires |parts| >= 1 && DotFree(parts)
    ensures Split(Join(parts)) == parts
    decreases |parts|
  {
    if |parts| == 1 {
      SplitWithoutDot(parts[0]);
    } else {
      SplitWithoutDot(parts[0]);
      SplitJoin(parts[1..]);
      SplitDotted(parts[0], Join(parts[1..]));
      assert [parts[0]] + parts[1..] == parts;
    }
  }

  /** There is one segment more than there are dots. */
  lemma {:induction false} SegmentCount(s: string)
    ensures |Split(s)| == Dots(s) + 1
    decreases |s|
  {
    if s != [] {
      SegmentCount(s[1..]);
      assert s == [s[0]] + s[1..];
      assert multiset(s) == multiset([s[0]]) + multiset(s[1..]);
    }
  }

  /** The segments of `a.b` and of `a.b.c` when the pieces have no dot. */
  lemma TwoSegments(a: string, b: string)
    requires '.' !in a && '.' !in b
    ensures Split(a + "." + b) == [a, b]
  {
    SplitDotted(a, b);
    SplitWithoutDot(a);
    SplitWithoutDot(b);
  }

  lemma ThreeSegments(a: string, b: string, c: string)
    requires '.' !in a && '.' !in b && '.' !in c
    ensures Split(a + "." + b + "." + c) == [a, b, c]
  {
    TwoSegments(b, c);
    SplitWithoutDot(a);
    assert a + "." + b + "." + c == a + "." + (b + "." + c);
    SplitDotted(a, b + "." + c);
  }
}
