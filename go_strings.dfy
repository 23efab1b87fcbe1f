/**
 * The parts of Go's `strings` package, `unicode.IsSpace` and the `\s` class of Go's
 * regular expressions that the pipeline relies on.
 */
module GoStrings {

  /** `strings.Split(s, string(c))`: the pieces between the separators; "" gives [""]. */
  function Split(s: string, c: char): (r: seq<string>)
    ensures |r| >= 1
    decreases |s|
  {
    if s == [] then [""]
    else
      var rest := Split(s[1..], c);
      if s[0] == c then [""] + rest else [[s[0]] + rest[0]] + rest[1..]
  }

  /** `strings.Join(xs, sep)`. */
  function JoinSep(xs: seq<string>, sep: string): string
    decreases |xs|
  {
    if |xs| == 0 then ""
    else if |xs| == 1 then xs[0]
    else xs[0] + sep + JoinSep(xs[1..], sep)
  }

  lemma {:induction false} JoinSepCons(x: string, y: string, t: seq<string>, sep: string)
    ensures JoinSep([x + y] + t, sep) == x + JoinSep([y] + t, sep)
  {
    if t != [] {
      assert ([x + y] + t)[1..] == t;
      assert ([y] + t)[1..] == t;
    }
  }

  /** Joining the pieces of a split with the same separator gives the string back. */
  lemma {:induction false} JoinSplit(s: string, c: char)
    ensures JoinSep(Split(s, c), [c]) == s
    decreases |s|
  {
    if s != [] {
      var rest := Split(s[1..], c);
      JoinSplit(s[1..], c);
      if s[0] == c {
        assert ([""] + rest)[1..] == rest;
        assert JoinSep([""] + rest, [c]) == "" + [c] + JoinSep(rest, [c]);
        assert s == [c] + s[1..];
      } else {
        JoinSepCons([s[0]], rest[0], rest[1..], [c]);
        assert [rest[0]] + rest[1..] == rest;
        assert s == [s[0]] + s[1..];
      }
    }
  }

  lemma SplitCons(x: char, t: string, c: char)
    ensures Split([x] + t, c) ==
      if x == c then [""] + Split(t, c) else [[x] + Split(t, c)[0]] + Split(t, c)[1..]
  {
    assert ([x] + t)[0] == x && ([x] + t)[1..] == t;
  }

  /** A separator in the middle splits into the pieces of both sides. */
  lemma {:induction false} SplitAround(a: string, b: string, c: char)
    ensures Split(a + [c] + b, c) == Split(a, c) + Split(b, c)
    decreases |a|
  {
    if a == [] {
      assert a + [c] + b == [c] + b;
      SplitCons(c, b, c);
    } else {
      var t := a[1..] + [c] + b;
      assert a + [c] + b == [a[0]] + t;
      assert a == [a[0]] + a[1..];
      SplitAround(a[1..], b, c);
      SplitConsAppend(a[0], a[1..], Split(b, c), c);
      SplitCons(a[0], t, c);
    }
  }

  /** The first character's effect on a split does not depend on what follows the pieces. */
  lemma SplitConsAppend(x: char, a: string, rb: seq<string>, c: char)
    ensures var ra := Split(a, c);
      (if x == c then [""] + (ra + rb) else [[x] + (ra + rb)[0]] + (ra + rb)[1..])
      == Split([x] + a, c) + rb
  {
    SplitCons(x, a, c);
    var ra := Split(a, c);
    if x != c {
      var first := [x] + ra[0];
      assert (ra + rb)[0] == ra[0];
      assert (ra + rb)[1..] == ra[1..] + rb;
      assert [first] + (ra[1..] + rb) == ([first] + ra[1..]) + rb;
    } else {
      assert [""] + (ra + rb) == ([""] + ra) + rb;
    }
  }

  lemma {:induction false} SplitWithoutSeparator(a: string, c: char)
    requires c !in a
    ensures Split(a, c) == [a]
    decreases |a|
  {
    if a != [] {
      SplitWithoutSeparator(a[1..], c);
      assert [a[0]] + a[1..] == a;
    }
  }

  /** Splitting a join gives the pieces back, when no piece holds the separator. */
  lemma {:induction false} SplitJoin(xs: seq<string>, c: char)
    requires |xs| >= 1
    requires forall i :: 0 <= i < |xs| ==> c !in xs[i]
    ensures Split(JoinSep(xs, [c]), c) == xs
    decreases |xs|
  {
    SplitWithoutSeparator(xs[0], c);
    if |xs| > 1 {
      SplitJoin(xs[1..], c);
      SplitAround(xs[0], JoinSep(xs[1..], [c]), c);
      assert xs[0] + [c] + JoinSep(xs[1..], [c]) == JoinSep(xs, [c]);
      assert [xs[0]] + xs[1..] == xs;
    }
  }

  lemma {:induction false} JoinSepAppend(a: seq<string>, b: seq<string>, sep: string)
    requires |a| >= 1 && |b| >= 1
    ensures JoinSep(a + b, sep) == JoinSep(a, sep) + sep + JoinSep(b, sep)
    decreases |a|
  {
    if |a| > 1 {
      JoinSepAppend(a[1..], b, sep);
      assert (a + b)[1..] == a[1..] + b;
    } else {
      assert (a + b)[1..] == b;
    }
  }

  /** A string that does not end with the separator ends with a non-empty piece. */
  lemma {:induction false} SplitLastNonEmpty(s: string, c: char)
    requires s != [] && s[|s| - 1] != c
    ensures Split(s, c)[|Split(s, c)| - 1] != []
    decreases |s|
  {
    var rest := Split(s[1..], c);
    if |s| == 1 {
      assert s[1..] == [];
      assert Split(s, c) == [[s[0]] + ""];
    } else {
      assert s[1..][|s[1..]| - 1] == s[|s| - 1];
      SplitLastNonEmpty(s[1..], c);
      var last := rest[|rest| - 1];
      if s[0] == c {
        assert Split(s, c) == [""] + rest;
      } else if |rest| == 1 {
        assert Split(s, c) == [[s[0]] + rest[0]];
      } else {
        assert Split(s, c) == [[s[0]] + rest[0]] + rest[1..];
        assert rest[1..][|rest[1..]| - 1] == last;
      }
    }
  }

  /** A join whose last piece is non-empty is non-empty. */
  lemma {:induction false} JoinSepLastNonEmpty(xs: seq<string>, sep: string)
    requires |xs| >= 1 && xs[|xs| - 1] != []
    ensures JoinSep(xs, sep) != []
    decreases |xs|
  {
    if |xs| > 1 {
      JoinSepLastNonEmpty(xs[1..], sep);
    }
  }

  /** The first and last characters of a join are those of its first and last piece. */
  lemma {:induction false} JoinSepEnds(xs: seq<string>, sep: string)
    requires |xs| >= 1 && forall i :: 0 <= i < |xs| ==> xs[i] != []
    ensures var j := JoinSep(xs, sep);
      |j| > 0 && j[0] == xs[0][0] && j[|j| - 1] == xs[|xs| - 1][|xs[|xs| - 1]| - 1]
    decreases |xs|
  {
    if |xs| > 1 {
      JoinSepEnds(xs[1..], sep);
    }
  }

  /** Go's `unicode.IsSpace`: the White_Space characters. */
  predicate IsSpace(ch: char) {
    var n := ch as int;
    (9 <= n <= 13) || n == 32 || n == 0x85 || n == 0xA0 || n == 0x1680
    || (0x2000 <= n <= 0x200A) || n == 0x2028 || n == 0x2029 || n == 0x202F
    || n == 0x205F || n == 0x3000
  }

  /** The `\s` class of Go's regular expressions: tab, newline, form feed, carriage return, space. */
  predicate IsRegexSpace(ch: char) {
    var n := ch as int;
    n == 9 || n == 10 || n == 12 || n == 13 || n == 32
  }

  /** The regular expression `\S+` finds a match in `s`. */
  predicate ContainsNonWhitespace(s: string)
    decreases |s|
  {
    s != [] && (!IsRegexSpace(s[0]) || ContainsNonWhitespace(s[1..]))
  }

  /** The regular expression `\S+` matches somewhere in `s` exactly when some character is not a space. */
  lemma {:induction false} ContainsNonWhitespaceAt(s: string)
    ensures ContainsNonWhitespace(s) <==> exists i :: 0 <= i < |s| && !IsRegexSpace(s[i])
    decreases |s|
  {
    if s != [] {
      ContainsNonWhitespaceAt(s[1..]);
      if exists i :: 0 <= i < |s| && !IsRegexSpace(s[i]) {
        var i :| 0 <= i < |s| && !IsRegexSpace(s[i]);
        if i > 0 {
          assert s[1..][i - 1] == s[i];
        }
      }
      if ContainsNonWhitespace(s[1..]) && IsRegexSpace(s[0]) {
        var j :| 0 <= j < |s[1..]| && !IsRegexSpace(s[1..][j]);
        assert s[j + 1] == s[1..][j];
      }
    }
  }

  /** `strings.TrimLeftFunc(s, unicode.IsSpace)`. */
  function TrimLeft(s: string): (r: string)
    ensures |r| <= |s| && r == s[|s| - |r|..]
    ensures forall i :: 0 <= i < |s| - |r| ==> IsSpace(s[i])
    ensures r == [] || !IsSpace(r[0])
    decreases |s|
  {
    if s != [] && IsSpace(s[0]) then TrimLeft(s[1..]) else s
  }

  /** `strings.TrimRightFunc(s, unicode.IsSpace)`. */
  function TrimRight(s: string): (r: string)
    ensures |r| <= |s| && r == s[..|r|]
    ensures forall i :: |r| <= i < |s| ==> IsSpace(s[i])
    ensures r == [] || !IsSpace(r[|r| - 1])
    decreases |s|
  {
    if s != [] && IsSpace(s[|s| - 1]) then TrimRight(s[..|s| - 1]) else s
  }

  /** Neither starts nor ends with a white-space character. */
  predicate IsTrimmed(s: string) {
    s == [] || (!IsSpace(s[0]) && !IsSpace(s[|s| - 1]))
  }

  /** `strings.TrimSpace`. */
  function TrimSpace(s: string): (r: string)
    ensures IsTrimmed(r)
    ensures |r| <= |s|
    ensures IsTrimmed(s) ==> r == s
    ensures exists i, j :: SpaceAround(s, r, i, j)
  {
    var l := TrimLeft(s);
    SpaceAroundSuffixPrefix(s, l, TrimRight(l));
    TrimRight(l)
  }

  /** `r` is `s[i..j]`, and everything of `s` outside it is white space. */
  predicate SpaceAround(s: string, r: string, i: int, j: int) {
    && 0 <= i <= j <= |s| && r == s[i..j]
    && (forall k :: 0 <= k < i ==> IsSpace(s[k]))
    && (forall k :: j <= k < |s| ==> IsSpace(s[k]))
  }

  /** A prefix `r` of a suffix `l` of `s`, each cut off at white space only, is such a slice. */
  lemma SpaceAroundSuffixPrefix(s: string, l: string, r: string)
    requires |l| <= |s| && l == s[|s| - |l|..] && forall k :: 0 <= k < |s| - |l| ==> IsSpace(s[k])
    requires |r| <= |l| && r == l[..|r|] && forall k :: |r| <= k < |l| ==> IsSpace(l[k])
    ensures SpaceAround(s, r, |s| - |l|, |s| - |l| + |r|)
  {
    var i := |s| - |l|;
    var j := i + |r|;
    assert s[i..][..|r|] == s[i..j];
    forall k | j <= k < |s| ensures IsSpace(s[k]) {
      assert s[k] == l[k - i];
    }
  }

  /** On a trimmed string, `\S+` matches exactly when the string is not empty. */
  lemma TrimmedHasNonWhitespace(s: string)
    requires IsTrimmed(s)
    ensures ContainsNonWhitespace(s) <==> s != []
  {
    if s != [] {
      assert !IsRegexSpace(s[0]);
    }
  }

  predicate HasPrefix(s: string, p: string) {
    |p| <= |s| && s[..|p|] == p
  }

  /** `strings.Contains(s, pat)`. */
  predicate Contains(s: string, pat: string)
    decreases |s|
  {
    HasPrefix(s, pat) || (s != [] && Contains(s[1..], pat))
  }

  /** `strings.Replace(s, pat, "", -1)`: drops the non-overlapping occurrences, left to right. */
  function RemoveAll(s: string, pat: string): (r: string)
    requires pat != []
    ensures |r| <= |s|
    decreases |s|
  {
    if |s| < |pat| then s
    else if s[..|pat|] == pat then RemoveAll(s[|pat|..], pat)
    else [s[0]] + RemoveAll(s[1..], pat)
  }

  /** Text without the pattern is left unchanged. */
  lemma {:induction false} RemoveAllAbsent(s: string, pat: string)
    requires pat != [] && !Contains(s, pat)
    ensures RemoveAll(s, pat) == s
    decreases |s|
  {
    if |s| >= |pat| {
      RemoveAllAbsent(s[1..], pat);
      assert [s[0]] + s[1..] == s;
    }
  }

  /** Text holding the pattern gets shorter by at least one occurrence. */
  lemma {:induction false} RemoveAllShrinks(s: string, pat: string)
    requires pat != [] && Contains(s, pat)
    ensures |RemoveAll(s, pat)| <= |s| - |pat|
    decreases |s|
  {
    if !HasPrefix(s, pat) {
      RemoveAllShrinks(s[1..], pat);
    }
  }
}
