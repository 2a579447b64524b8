/**
 * The string operations the core relies on: Python's `str.split` with a
 * one-character separator, the inverse join, substring search (Python's
 * `in` on strings) and the final segment after a separator.
 */
module Strings {

  /** `sep.join(parts)` for a one-character separator. */
  function JoinWith(parts: seq<string>, sep: char): string
    decreases |parts|
  {
    if |parts| == 0 then ""
    else if |parts| == 1 then parts[0]
    else parts[0] + [sep] + JoinWith(parts[1..], sep)
  }

  /**
   * `s.split(sep)`: the pieces between separators, empty pieces included,
   * so there is always one more piece than there are separators.
   */
  function Split(s: string, sep: char): (parts: seq<string>)
    ensures |parts| >= 1
    ensures forall i :: 0 <= i < |parts| ==> sep !in parts[i]
    ensures JoinWith(parts, sep) == s
  {
    if s == [] then [[]]
    else
      var rest := Split(s[1..], sep);
      if s[0] == sep then
        assert JoinWith([[]] + rest, sep) == [] + [sep] + JoinWith(rest, sep);
        [[]] + rest
      else
        var parts := [[s[0]] + rest[0]] + rest[1..];
        assert parts[1..] == rest[1..];
        assert JoinWith(parts, sep) == s by {
          if |rest| > 1 {
            assert JoinWith(rest, sep) == rest[0] + [sep] + JoinWith(rest[1..], sep);
          }
        }
        parts
  }

  /** Python's `t in s` for two strings. */
  predicate IsSubstring(t: string, s: string)
  {
    t <= s || (s != [] && IsSubstring(t, s[1..]))
  }

  /**
   * A characterisation of "the text after the last separator": a suffix of
   * `s` free of `sep` that is either all of `s` or preceded by `sep`.
   */
  ghost predicate IsLastSegment(name: string, s: string, sep: char)
  {
    && |name| <= |s|
    && s[|s| - |name|..] == name
    && sep !in name
    && (|name| == |s| || s[|s| - |name| - 1] == sep)
  }

  /** `s.split(sep)[-1]`. */
  function LastSegment(s: string, sep: char): (name: string)
    ensures IsLastSegment(name, s, sep)
  {
    var parts := Split(s, sep);
    LastOfSplit(s, sep);
    parts[|parts| - 1]
  }

  lemma {:induction false} LastOfSplit(s: string, sep: char)
    ensures IsLastSegment(Split(s, sep)[|Split(s, sep)| - 1], s, sep)
  {
    if s != [] {
      LastOfSplit(s[1..], sep);
      var rest := Split(s[1..], sep);
      var parts := Split(s, sep);
      var last := rest[|rest| - 1];
      if s[0] == sep {
        assert parts == [[]] + rest;
        assert parts[|parts| - 1] == last;
      } else if |rest| > 1 {
        assert parts == [[s[0]] + rest[0]] + rest[1..];
        assert parts[|parts| - 1] == last;
      } else {
        assert parts == [[s[0]] + rest[0]];
        assert rest[0] == s[1..] by {
          assert JoinWith(rest, sep) == rest[0];
        }
        assert parts[|parts| - 1] == s;
      }
    }
  }

  /** The last segment is unique: any suffix with its defining property is it. */
  lemma LastSegmentUnique(a: string, b: string, s: string, sep: char)
    requires IsLastSegment(a, s, sep) && IsLastSegment(b, s, sep)
    ensures a == b
  {
  }

  /** The segment after the last separator of `dir + [sep] + name` is `name`. */
  lemma LastSegmentOfJoin(dir: string, name: string, sep: char)
    requires sep !in name
    ensures LastSegment(dir + [sep] + name, sep) == name
  {
    var s := dir + [sep] + name;
    assert s[|s| - |name|..] == name;
    assert s[|s| - |name| - 1] == sep;
    LastSegmentUnique(LastSegment(s, sep), name, s, sep);
  }
}
