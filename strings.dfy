/** Python's `str.split(sep)` with a one-character separator, `sep.join(parts)`,
    `str.endswith` and the `in` test on strings, over `seq<char>`. */
module Strings {

  /** Number of occurrences of `x` in `s`: Python's `s.count(x)` for a single element. */
  function Count<T(==)>(s: seq<T>, x: T): nat
  {
    multiset(s)[x]
  }

  /** `s.split(sep)`: the pieces between occurrences of `sep`, never an empty list. */
  function Split(s: string, sep: char): (parts: seq<string>)
    ensures |parts| >= 1
    ensures forall p :: p in parts ==> sep !in p
    decreases |s|
  {
    if |s| == 0 then [""]
    else
      var rest := Split(s[1..], sep);
      assert s == [s[0]] + s[1..];
      if s[0] == sep then [""] + rest
      else [[s[0]] + rest[0]] + rest[1..]
  }

  /** `sep.join(parts)`. */
  function Join(parts: seq<string>, sep: string): string
  {
    if |parts| == 0 then ""
    else if |parts| == 1 then parts[0]
    else parts[0] + sep + Join(parts[1..], sep)
  }

  /** Joining splits at any inner position into the two joined halves. */
  lemma {:induction false} JoinAt(parts: seq<string>, k: nat, sep: string)
    requires 0 < k < |parts|
    ensures Join(parts, sep) == Join(parts[..k], sep) + sep + Join(parts[k..], sep)
  {
    if k > 1 {
      JoinAt(parts[1..], k - 1, sep);
      assert parts[1..][..k - 1] == parts[..k][1..];
      assert parts[1..][k - 1..] == parts[k..];
    }
  }

  /** `s.endswith(suffix)`. */
  predicate EndsWith(s: string, suffix: string)
  {
    |suffix| <= |s| && s[|s| - |suffix|..] == suffix
  }

  /** `t` occurs in `s` starting at index `i`. */
  predicate OccursAt(s: string, t: string, i: int)
  {
    0 <= i <= |s| - |t| && s[i..i + |t|] == t
  }

  /** `t in s` for strings: `t` occurs in `s` as a contiguous piece. */
  predicate Contains(s: string, t: string)
  {
    exists i :: 0 <= i <= |s| - |t| && OccursAt(s, t, i)
  }

  /** `s.split(sep)[0]`. */
  function FirstSegment(s: string, sep: char): string
  {
    Split(s, sep)[0]
  }

  /** `s.split(sep)[-1]`. */
  function LastSegment(s: string, sep: char): string
  {
    var parts := Split(s, sep);
    parts[|parts| - 1]
  }

  /** Joining the pieces of a split gives back the string. */
  lemma {:induction false} JoinSplit(s: string, sep: char)
    ensures Join(Split(s, sep), [sep]) == s
    decreases |s|
  {
    if |s| > 0 {
      var tail := s[1..];
      var rest := Split(tail, sep);
      JoinSplit(tail, sep);
      assert Join(rest, [sep]) == tail;
      if s[0] == sep {
        assert Split(s, sep) == [""] + rest;
        JoinCons("", rest, [sep]);
      } else {
        var first := [s[0]] + rest[0];
        assert Split(s, sep) == [first] + rest[1..];
        if |rest| == 1 {
          assert rest == [rest[0]];
          assert [first] + rest[1..] == [first];
        } else {
          assert rest == [rest[0]] + rest[1..];
          JoinCons(rest[0], rest[1..], [sep]);
          JoinCons(first, rest[1..], [sep]);
        }
      }
      assert s == [s[0]] + tail;
    }
  }

  /** Joining a non-empty tail after a head puts one separator between them. */
  lemma JoinCons(head: string, tail: seq<string>, sep: string)
    requires |tail| > 0
    ensures Join([head] + tail, sep) == head + sep + Join(tail, sep)
  {
    assert ([head] + tail)[1..] == tail;
  }

  /** A split with one segment only comes from a string without the separator. */
  lemma {:induction false} SingleSegmentHasNoSeparator(s: string, sep: char)
    requires |Split(s, sep)| == 1
    ensures sep !in s
    decreases |s|
  {
    if |s| > 0 {
      SingleSegmentHasNoSeparator(s[1..], sep);
      assert s == [s[0]] + s[1..];
    }
  }

  /** The split has one more segment than the string has separators. */
  lemma {:induction false} SplitCount(s: string, sep: char)
    ensures |Split(s, sep)| == Count(s, sep) + 1
    decreases |s|
  {
    if |s| > 0 {
      SplitCount(s[1..], sep);
      assert s == [s[0]] + s[1..];
      assert multiset(s) == multiset([s[0]]) + multiset(s[1..]);
    }
  }

  /** A string without the separator splits into itself alone. */
  lemma SplitWithoutSeparator(s: string, sep: char)
    requires sep !in s
    ensures Split(s, sep) == [s]
  {
    SplitCount(s, sep);
    JoinSplit(s, sep);
  }

  /** Splitting around one occurrence of the separator splits both sides independently. */
  lemma {:induction false} SplitAround(a: string, sep: char, b: string)
    ensures Split(a + [sep] + b, sep) == Split(a, sep) + Split(b, sep)
    decreases |a|
  {
    var s := a + [sep] + b;
    if |a| == 0 {
      assert s[1..] == b;
    } else {
      assert s[1..] == a[1..] + [sep] + b;
      SplitAround(a[1..], sep, b);
    }
  }

  /** The first segment is the longest prefix free of the separator. */
  lemma {:induction false} FirstSegmentIsLongestFreePrefix(s: string, sep: char)
    ensures var r := FirstSegment(s, sep);
      && r <= s
      && sep !in r
      && (|r| == |s| || s[|r|] == sep)
    decreases |s|
  {
    if |s| > 0 && s[0] != sep {
      FirstSegmentIsLongestFreePrefix(s[1..], sep);
    }
  }

  /** The last segment is the longest suffix free of the separator. */
  lemma {:induction false} LastSegmentIsLongestFreeSuffix(s: string, sep: char)
    ensures var r := LastSegment(s, sep);
      && |r| <= |s| && s[|s| - |r|..] == r
      && sep !in r
      && (|r| == |s| || s[|s| - |r| - 1] == sep)
    decreases |s|
  {
    if |s| > 0 {
      var rest := Split(s[1..], sep);
      LastSegmentIsLongestFreeSuffix(s[1..], sep);
      var r := LastSegment(s, sep);
      if s[0] != sep && |rest| == 1 {
        SingleSegmentHasNoSeparator(s[1..], sep);
        SplitWithoutSeparator(s[1..], sep);
        assert r == [s[0]] + s[1..] == s;
      } else if s[0] != sep {
        assert r == LastSegment(s[1..], sep);
        if sep !in s[1..] {
          SplitWithoutSeparator(s[1..], sep);
        }
      }
    }
  }

  /** The last segment of `a + sep + b` is that of `b`. */
  lemma LastSegmentAfterSeparator(a: string, sep: char, b: string)
    ensures LastSegment(a + [sep] + b, sep) == LastSegment(b, sep)
  {
    SplitAround(a, sep, b);
  }
}
