/**
 * strings.Split with a one-byte separator, and the facts about it that
 * the token codec needs: splitting and joining are inverse, the number of
 * segments is one more than the number of separators, and no segment
 * contains the separator.
 */
module Strings {
  import opened Crypto

  /**
   * strings.Split(s, sep) for a non-empty `sep` of one byte: every maximal
   * separator-free piece, so the empty input gives one empty segment and
   * k separators give k + 1 segments.
   */
  function Split(s: Bytes, sep: byte): (segments: seq<Bytes>)
    ensures |segments| >= 1
    decreases |s|
  {
    if s == [] then [[]]
    else
      var rest := Split(s[1..], sep);
      if s[0] == sep then [[]] + rest
      else [[s[0]] + rest[0]] + rest[1..]
  }

  /** strings.Join(segments, sep). */
  function Join(segments: seq<Bytes>, sep: byte): Bytes
    decreases |segments|
  {
    if segments == [] then []
    else if |segments| == 1 then segments[0]
    else segments[0] + [sep] + Join(segments[1..], sep)
  }

  /** The number of occurrences of `x` in `s`. */
  function Count(s: Bytes, x: byte): nat
    decreases |s|
  {
    if s == [] then 0 else (if s[0] == x then 1 else 0) + Count(s[1..], x)
  }

  /** Joining the segments back with the separator restores the input. */
  lemma {:induction false} JoinSplit(s: Bytes, sep: byte)
    ensures Join(Split(s, sep), sep) == s
    decreases |s|
  {
    if s != [] {
      var rest := Split(s[1..], sep);
      JoinSplit(s[1..], sep);
      if s[0] == sep {
        assert Split(s, sep) == [[]] + rest;
        assert s == [] + [sep] + Join(rest, sep);
      } else {
        var segments := Split(s, sep);
        assert segments == [[s[0]] + rest[0]] + rest[1..];
        if |rest| == 1 {
          assert s == [s[0]] + rest[0];
        } else {
          assert Join(rest, sep) == rest[0] + [sep] + Join(rest[1..], sep);
          assert segments[1..] == rest[1..];
          assert s == [s[0]] + rest[0] + [sep] + Join(rest[1..], sep);
        }
      }
    }
  }

  /** There is one segment more than there are separators. */
  lemma {:induction false} SplitLength(s: Bytes, sep: byte)
    ensures |Split(s, sep)| == Count(s, sep) + 1
    decreases |s|
  {
    if s != [] {
      SplitLength(s[1..], sep);
    }
  }

  /** No segment contains the separator. */
  lemma {:induction false} SplitSegmentsSeparatorFree(s: Bytes, sep: byte)
    ensures forall i :: 0 <= i < |Split(s, sep)| ==> sep !in Split(s, sep)[i]
    decreases |s|
  {
    if s != [] {
      SplitSegmentsSeparatorFree(s[1..], sep);
    }
  }

  /** A separator-free input is one segment. */
  lemma {:induction false} SplitSeparatorFree(a: Bytes, sep: byte)
    requires sep !in a
    ensures Split(a, sep) == [a]
    decreases |a|
  {
    if a != [] {
      SplitSeparatorFree(a[1..], sep);
      assert [a[0]] + a[1..] == a;
    }
  }

  /** A separator-free prefix followed by a separator becomes the first segment. */
  lemma {:induction false} SplitAfterPrefix(a: Bytes, rest: Bytes, sep: byte)
    requires sep !in a
    ensures Split(a + [sep] + rest, sep) == [a] + Split(rest, sep)
    decreases |a|
  {
    if a == [] {
      assert a + [sep] + rest == [sep] + rest;
      assert ([sep] + rest)[1..] == rest;
    } else {
      var s := a + [sep] + rest;
      assert s[1..] == a[1..] + [sep] + rest;
      SplitAfterPrefix(a[1..], rest, sep);
      assert [a[0]] + a[1..] == a;
    }
  }

  /** Splitting a join of separator-free segments gives those segments back. */
  lemma {:induction false} SplitJoin(segments: seq<Bytes>, sep: byte)
    requires |segments| >= 1
    requires forall i :: 0 <= i < |segments| ==> sep !in segments[i]
    ensures Split(Join(segments, sep), sep) == segments
    decreases |segments|
  {
    if |segments| == 1 {
      SplitSeparatorFree(segments[0], sep);
    } else {
      SplitJoin(segments[1..], sep);
      SplitAfterPrefix(segments[0], Join(segments[1..], sep), sep);
    }
  }

  /** The three-segment case the token codec uses. */
  lemma SplitThree(a: Bytes, b: Bytes, c: Bytes, sep: byte)
    requires sep !in a && sep !in b && sep !in c
    ensures Split(a + [sep] + b + [sep] + c, sep) == [a, b, c]
  {
    SplitSeparatorFree(c, sep);
    SplitAfterPrefix(b, c, sep);
    SplitAfterPrefix(a, b + [sep] + c, sep);
    assert a + [sep] + b + [sep] + c == a + [sep] + (b + [sep] + c);
  }
}
