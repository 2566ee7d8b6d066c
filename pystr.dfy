/** Python's `str.split(sep)` and `sep.join(parts)` for a one-character separator,
    the two string operations the logging layer relies on. */
module PyStr {

  /** `s.split(sep)`: the pieces of `s` between occurrences of `sep`, in order.
      Python never returns an empty list here: `"".split("/") == [""]`. */
  function Split(s: string, sep: char): (parts: seq<string>)
    ensures |parts| >= 1
    ensures forall i :: 0 <= i < |parts| ==> sep !in parts[i]
    decreases |s|
  {
    if s == [] then [""]
    else
      var rest := Split(s[1..], sep);
      if s[0] == sep then [""] + rest
      else [[s[0]] + rest[0]] + rest[1..]
  }

  /** `sep.join(parts)`, the inverse of `Split`. */
  function Join(parts: seq<string>, sep: char): string
  {
    if parts == [] then ""
    else if |parts| == 1 then parts[0]
    else parts[0] + [sep] + Join(parts[1..], sep)
  }

  /** The last element of a non-empty sequence, Python's `xs[-1]`. */
  function Last<T>(xs: seq<T>): T
    requires |xs| >= 1
  {
    xs[|xs| - 1]
  }

  /** `x` is what follows the last `sep` in `s`, or all of `s` when it holds no `sep`. */
  predicate IsFinalSegment(x: string, s: string, sep: char)
  {
    |x| <= |s| && s[|s| - |x|..] == x && sep !in x &&
    (|x| == |s| || s[|s| - |x| - 1] == sep)
  }

  /** Joining the pieces of a split gives back the original string. */
  lemma {:induction false} JoinSplit(s: string, sep: char)
    ensures Join(Split(s, sep), sep) == s
    decreases |s|
  {
    if s != [] {
      var rest := Split(s[1..], sep);
      JoinSplit(s[1..], sep);
      if s[0] == sep {
        assert ([""] + rest)[1..] == rest;
      } else if |rest| == 1 {
        assert Split(s, sep) == [[s[0]] + rest[0]];
      } else {
        var parts := Split(s, sep);
        assert parts[1..] == rest[1..];
        assert Join(rest, sep) == rest[0] + [sep] + Join(rest[1..], sep);
        assert s == [s[0]] + s[1..];
      }
    }
  }

  /** A string without the separator splits into itself alone. */
  lemma {:induction false} SplitWithoutSeparator(s: string, sep: char)
    requires sep !in s
    ensures Split(s, sep) == [s]
    decreases |s|
  {
    if s != [] {
      SplitWithoutSeparator(s[1..], sep);
      assert s == [s[0]] + s[1..];
    }
  }

  /** A separator between `a` and `b` splits the whole into the pieces of `a` followed by those of `b`. */
  lemma {:induction false} SplitAround(a: string, b: string, sep: char)
    ensures Split(a + [sep] + b, sep) == Split(a, sep) + Split(b, sep)
    decreases |a|
  {
    var s := a + [sep] + b;
    if a == [] {
      assert s[1..] == b;
    } else {
      assert s[1..] == a[1..] + [sep] + b;
      SplitAround(a[1..], b, sep);
      if a[0] != sep {
        var left, right := Split(a[1..], sep), Split(b, sep);
        assert (left + right)[0] == left[0];
        assert (left + right)[1..] == left[1..] + right;
      }
    }
  }

  /** A split yields one piece exactly when the separator does not occur. */
  lemma {:induction false} SinglePieceIffNoSeparator(s: string, sep: char)
    ensures |Split(s, sep)| == 1 <==> sep !in s
    decreases |s|
  {
    if s != [] {
      SinglePieceIffNoSeparator(s[1..], sep);
      assert s == [s[0]] + s[1..];
    }
  }

  /** A leading field without the separator splits off as the first piece. */
  lemma LeadingField(field: string, rest: string, sep: char)
    requires sep !in field
    ensures Split(field + [sep] + rest, sep) == [field] + Split(rest, sep)
  {
    SplitAround(field, rest, sep);
    SplitWithoutSeparator(field, sep);
  }

  /** The last piece of a split is the final segment of the string. */
  lemma {:induction false} LastPieceIsFinalSegment(s: string, sep: char)
    ensures IsFinalSegment(Last(Split(s, sep)), s, sep)
    decreases |s|
  {
    if s != [] {
      var rest := Split(s[1..], sep);
      LastPieceIsFinalSegment(s[1..], sep);
      var x := Last(rest);
      if s[0] == sep {
        assert Last(Split(s, sep)) == x;
        assert s[|s| - |x|..] == s[1..][|s[1..]| - |x|..];
      } else if |rest| == 1 {
        JoinSplit(s[1..], sep);
        assert Last(Split(s, sep)) == [s[0]] + x;
        assert s == [s[0]] + s[1..];
      } else {
        SinglePieceIffNoSeparator(s[1..], sep);
        assert sep in s[1..];
        assert Last(Split(s, sep)) == x;
        assert s[|s| - |x|..] == s[1..][|s[1..]| - |x|..];
      }
    }
  }

  /** At most one string is the final segment of `s`. */
  lemma FinalSegmentUnique(x: string, y: string, s: string, sep: char)
    requires IsFinalSegment(x, s, sep) && IsFinalSegment(y, s, sep)
    ensures x == y
  {
  }
}
