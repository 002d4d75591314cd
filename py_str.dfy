/**
  The parts of Python's `str` type that the tools use: `strip()`,
  `split(sep)`, `sep.join(pieces)` and `startswith(prefix)`.
  Strings are sequences of Unicode code points, as in Python 3.
 */
module PyStr {

  /** Python's `str.isspace()` for one code point: the 29 code points
      that `strip()` with no argument removes. */
  predicate IsSpace(c: char) {
    var n := c as int;
    (9 <= n <= 13) || (28 <= n <= 32) || n == 0x85 || n == 0xA0 || n == 0x1680
    || (0x2000 <= n <= 0x200A) || n == 0x2028 || n == 0x2029 || n == 0x202F
    || n == 0x205F || n == 0x3000
  }

  predicate AllSpace(s: string) {
    forall i :: 0 <= i < |s| ==> IsSpace(s[i])
  }

  /** Neither end of `s` is whitespace (what `strip()` leaves behind). */
  predicate IsStripped(s: string) {
    s == [] || (!IsSpace(s[0]) && !IsSpace(s[|s| - 1]))
  }

  /** `c` does not occur in `s`. */
  predicate Lacks(s: string, c: char) {
    forall j :: 0 <= j < |s| ==> s[j] != c
  }

  /** `s.startswith(prefix)`. */
  predicate StartsWith(s: string, prefix: string) {
    |prefix| <= |s| && s[..|prefix|] == prefix
  }

  /** A prefix of `s` stays a prefix when `s` is extended. */
  lemma StartsWithExtend(s: string, prefix: string, t: string)
    requires StartsWith(s, prefix)
    ensures StartsWith(s + t, prefix)
  {
    assert (s + t)[..|prefix|] == s[..|prefix|];
  }

  /** The first index at or after `i` that does not hold whitespace
      (`|s|` when there is none). */
  function SkipSpace(s: string, i: nat): (n: nat)
    requires i <= |s|
    ensures i <= n <= |s|
    ensures forall k :: i <= k < n ==> IsSpace(s[k])
    ensures n == |s| || !IsSpace(s[n])
    decreases |s| - i
  {
    if i < |s| && IsSpace(s[i]) then SkipSpace(s, i + 1) else i
  }

  /** The end of `s[lo..j]` once its trailing whitespace is dropped. */
  function TrimEnd(s: string, lo: nat, j: nat): (n: nat)
    requires lo <= j <= |s|
    ensures lo <= n <= j
    ensures forall k :: n <= k < j ==> IsSpace(s[k])
    ensures n == lo || !IsSpace(s[n - 1])
    decreases j - lo
  {
    if lo < j && IsSpace(s[j - 1]) then TrimEnd(s, lo, j - 1) else j
  }

  /** The contract of `SkipSpace` determines it. */
  lemma SkipSpaceIs(s: string, i: nat, n: nat)
    requires i <= n <= |s|
    requires forall k :: i <= k < n ==> IsSpace(s[k])
    requires n == |s| || !IsSpace(s[n])
    ensures SkipSpace(s, i) == n
  {
  }

  /** The contract of `TrimEnd` determines it. */
  lemma TrimEndIs(s: string, lo: nat, j: nat, n: nat)
    requires lo <= n <= j <= |s|
    requires forall k :: n <= k < j ==> IsSpace(s[k])
    requires n == lo || !IsSpace(s[n - 1])
    ensures TrimEnd(s, lo, j) == n
  {
  }

  /** Python's `s.strip()`: the text between the leading and the trailing
      whitespace. The result has no whitespace at either end;
      `StripParts` places it inside `s`, and `StripOfPadded` shows that
      these two facts pin it down. */
  function Strip(s: string): (r: string)
    ensures |r| <= |s| && IsStripped(r)
  {
    var i := SkipSpace(s, 0);
    s[i..TrimEnd(s, i, |s|)]
  }

  /** `s` is an all-whitespace prefix, then `Strip(s)`, then an
      all-whitespace suffix. */
  lemma StripParts(s: string)
    ensures var i := SkipSpace(s, 0);
      var r := Strip(s);
      i + |r| <= |s| && s[i..i + |r|] == r && AllSpace(s[..i]) && AllSpace(s[i + |r|..])
  {
  }

  /** Stripping drops exactly an all-whitespace padding on both sides. */
  lemma StripOfPadded(a: string, m: string, b: string)
    requires AllSpace(a) && AllSpace(b) && IsStripped(m)
    ensures Strip(a + m + b) == m
  {
    var x := a + m + b;
    if m == [] {
      SkipSpaceIs(x, 0, |x|);
    } else {
      assert x[|a|] == m[0];
      SkipSpaceIs(x, 0, |a|);
      assert x[|a| + |m| - 1] == m[|m| - 1];
      TrimEndIs(x, |a|, |x|, |a| + |m|);
      assert x[|a|..|a| + |m|] == m;
    }
  }

  /** Stripping twice is stripping once. */
  lemma StripIdempotent(s: string)
    ensures Strip(Strip(s)) == Strip(s)
  {
    var m := Strip(s);
    StripOfPadded([], m, []);
    assert [] + m + [] == m;
  }

  /** The number of occurrences of `c` in `s`. */
  function Count(s: string, c: char): nat
  {
    if s == [] then 0
    else (if s[0] == c then 1 else 0) + Count(s[1..], c)
  }

  /** Python's `sep.join(pieces)`: the pieces in order, with `sep` between
      neighbours and nowhere else. */
  function Join(sep: string, pieces: seq<string>): (r: string)
    ensures |pieces| == 0 ==> r == ""
    ensures |pieces| > 0 ==> StartsWith(r, pieces[0])
  {
    if |pieces| == 0 then ""
    else if |pieces| == 1 then pieces[0]
    else pieces[0] + sep + Join(sep, pieces[1..])
  }

  /** Joining is built up one piece at a time, which is how a list that grows
      by `append` is joined. */
  lemma {:induction false} JoinAppend(sep: string, pieces: seq<string>, last: string)
    requires |pieces| > 0
    ensures Join(sep, pieces + [last]) == Join(sep, pieces) + sep + last
    decreases |pieces|
  {
    if |pieces| == 1 {
      assert pieces + [last] == [pieces[0], last];
      assert [pieces[0], last][1..] == [last];
    } else {
      assert (pieces + [last])[1..] == pieces[1..] + [last];
      JoinAppend(sep, pieces[1..], last);
    }
  }

  /** Joining the first `n` pieces gives a prefix of joining them all. */
  lemma {:induction false} JoinPrefix(sep: string, pieces: seq<string>, n: nat)
    requires 0 < n <= |pieces|
    ensures StartsWith(Join(sep, pieces), Join(sep, pieces[..n]))
    decreases |pieces|
  {
    if n == |pieces| {
      assert pieces[..n] == pieces;
    } else {
      var m := |pieces| - 1;
      var front := pieces[..m];
      assert front[..n] == pieces[..n];
      assert pieces == front + [pieces[m]];
      JoinPrefix(sep, front, n);
      JoinAppend(sep, front, pieces[m]);
      StartsWithExtend(Join(sep, front), Join(sep, pieces[..n]), sep + pieces[m]);
    }
  }

  /** The length of a join: every piece, plus one separator between
      neighbours. */
  function TotalLength(pieces: seq<string>): nat
  {
    if pieces == [] then 0 else |pieces[0]| + TotalLength(pieces[1..])
  }

  lemma {:induction false} JoinLength(sep: string, pieces: seq<string>)
    requires |pieces| > 0
    ensures |Join(sep, pieces)| == TotalLength(pieces) + (|pieces| - 1) * |sep|
    decreases |pieces|
  {
    if |pieces| > 1 {
      JoinLength(sep, pieces[1..]);
    }
  }

  /** Python's `s.split(sep)` for a one-character separator: one piece more
      than there are separators, and no piece holds the separator.
      `JoinSplit` and `SplitJoin` show that it is the inverse of joining
      with the separator. */
  function Split(s: string, sep: char): (pieces: seq<string>)
    ensures |pieces| == Count(s, sep) + 1
    ensures forall i :: 0 <= i < |pieces| ==> Lacks(pieces[i], sep)
    decreases |s|
  {
    if s == [] then [""]
    else
      var rest := Split(s[1..], sep);
      if s[0] == sep then [""] + rest
      else [[s[0]] + rest[0]] + rest[1..]
  }

  /** Joining the pieces of a split with the separator gives the string back. */
  lemma {:induction false} JoinSplit(s: string, sep: char)
    ensures Join([sep], Split(s, sep)) == s
    decreases |s|
  {
    if s != [] {
      var rest := Split(s[1..], sep);
      JoinSplit(s[1..], sep);
      if s[0] == sep {
        assert ([""] + rest)[1..] == rest;
        assert s == [sep] + s[1..];
      } else {
        var pieces := [[s[0]] + rest[0]] + rest[1..];
        assert pieces[1..] == rest[1..];
        assert s == [s[0]] + s[1..];
      }
    }
  }

  /** A character other than the separator joins the first piece. */
  lemma SplitCons(c: char, t: string, sep: char)
    requires c != sep
    ensures Split([c] + t, sep) == [[c] + Split(t, sep)[0]] + Split(t, sep)[1..]
  {
    assert ([c] + t)[1..] == t;
  }

  /** Splitting a separator-free prefix glued to the rest extends the first
      piece of the rest. */
  lemma {:induction false} SplitPrefix(a: string, t: string, sep: char)
    requires Lacks(a, sep)
    ensures Split(a + t, sep) == [a + Split(t, sep)[0]] + Split(t, sep)[1..]
    decreases |a|
  {
    var pieces := Split(t, sep);
    if a != [] {
      var tail := a[1..];
      assert Lacks(tail, sep) by {
        forall i | 0 <= i < |tail| ensures tail[i] != sep {
          assert tail[i] == a[i + 1];
        }
      }
      assert a + t == [a[0]] + (tail + t);
      SplitCons(a[0], tail + t, sep);
      SplitPrefix(tail, t, sep);
      assert [a[0]] + (tail + pieces[0]) == a + pieces[0];
    } else {
      assert a + t == t;
      assert a + pieces[0] == pieces[0];
      assert pieces == [pieces[0]] + pieces[1..];
    }
  }

  /** A leading separator opens an empty first piece. */
  lemma SplitAtSep(t: string, sep: char)
    ensures Split([sep] + t, sep) == [""] + Split(t, sep)
  {
    assert ([sep] + t)[1..] == t;
  }

  /** Split undoes Join when no piece holds the separator. */
  lemma {:induction false} SplitJoin(pieces: seq<string>, sep: char)
    requires |pieces| > 0
    requires forall i :: 0 <= i < |pieces| ==> Lacks(pieces[i], sep)
    ensures Split(Join([sep], pieces), sep) == pieces
    decreases |pieces|
  {
    if |pieces| == 1 {
      SplitPrefix(pieces[0], "", sep);
      assert pieces[0] + "" == pieces[0];
    } else {
      var rest := Join([sep], pieces[1..]);
      assert Join([sep], pieces) == pieces[0] + ([sep] + rest);
      SplitJoin(pieces[1..], sep);
      SplitAtSep(rest, sep);
      SplitPrefix(pieces[0], [sep] + rest, sep);
      assert Split([sep] + rest, sep)[0] == "";
      assert pieces[0] + "" == pieces[0];
      assert [pieces[0]] + pieces[1..] == pieces;
    }
  }
}
