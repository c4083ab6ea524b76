/**
 * The few pieces of Python string semantics the configuration code relies on:
 * truthiness of an optional string, `str.split(sep)` with a one-character
 * separator, `str.replace(pat, rep)` and the `in` substring test.
 */
module PyStr {
  import opened Wrappers

  /** `if s:` for a value that is `None` or a `str`: both `None` and `''` are false. */
  predicate Truthy(s: Option<string>) {
    s.Some? && s.value != ""
  }

  /** Python's `a or b` on optional strings: `a` when it is truthy, `b` otherwise. */
  function Or(a: Option<string>, b: Option<string>): (r: Option<string>)
    ensures Truthy(a) ==> r == a
    ensures !Truthy(a) ==> r == b
    ensures Truthy(r) <==> Truthy(a) || Truthy(b)
  {
    if Truthy(a) then a else b
  }

  /** `needle` occurs in `s` starting at index `i`. */
  predicate OccursAt(s: string, needle: string, i: nat) {
    i + |needle| <= |s| && s[i..i + |needle|] == needle
  }

  /** Python's `needle in s` for two strings. */
  predicate Contains(s: string, needle: string) {
    exists i: nat | i <= |s| :: OccursAt(s, needle, i)
  }

  /**
   * `s.split(sep)`: every occurrence of `sep` ends a piece, nothing is trimmed,
   * and the empty string splits into one empty piece.
   */
  function Split(s: string, sep: char): (r: seq<string>)
    ensures |r| >= 1
    decreases |s|
  {
    if s == [] then [[]]
    else
      var rest := Split(s[1..], sep);
      if s[0] == sep then [[]] + rest
      else [[s[0]] + rest[0]] + rest[1..]
  }

  /** `sep.join(parts)`: the independent inverse of `Split`. */
  function Join(parts: seq<string>, sep: char): string
    requires |parts| >= 1
  {
    if |parts| == 1 then parts[0]
    else parts[0] + [sep] + Join(parts[1..], sep)
  }

  /** Joining the pieces of a split gives back the original string. */
  lemma {:induction false} JoinSplit(s: string, sep: char)
    ensures Join(Split(s, sep), sep) == s
    decreases |s|
  {
    if s != [] {
      var rest := Split(s[1..], sep);
      JoinSplit(s[1..], sep);
      if s[0] == sep {
        assert ([[]] + rest)[1..] == rest;
      } else if |rest| > 1 {
        var parts := [[s[0]] + rest[0]] + rest[1..];
        assert parts[1..] == rest[1..];
        assert s == [s[0]] + s[1..];
      } else {
        assert s == [s[0]] + s[1..];
      }
    }
  }

  /** No piece of a split contains the separator. */
  lemma {:induction false} SplitPiecesSepFree(s: string, sep: char)
    ensures forall i :: 0 <= i < |Split(s, sep)| ==> sep !in Split(s, sep)[i]
    decreases |s|
  {
    if s != [] {
      SplitPiecesSepFree(s[1..], sep);
      var rest := Split(s[1..], sep);
      if s[0] != sep {
        var parts := [[s[0]] + rest[0]] + rest[1..];
        assert forall i :: 1 <= i < |parts| ==> parts[i] == rest[i];
      } else {
        assert forall i :: 1 <= i < |rest| + 1 ==> ([[]] + rest)[i] == rest[i - 1];
      }
    }
  }

  /** A string without the separator splits into itself alone. */
  lemma {:induction false} SplitSepFree(s: string, sep: char)
    requires sep !in s
    ensures Split(s, sep) == [s]
    decreases |s|
  {
    if s != [] {
      SplitSepFree(s[1..], sep);
      assert s == [s[0]] + s[1..];
    }
  }

  /** Splitting at one occurrence of the separator splits both halves independently. */
  lemma {:induction false} SplitAtSep(a: string, b: string, sep: char)
    ensures Split(a + [sep] + b, sep) == Split(a, sep) + Split(b, sep)
    decreases |a|
  {
    if a == [] {
      assert [] + [sep] + b == [sep] + b;
      assert ([sep] + b)[1..] == b;
    } else {
      var s := a + [sep] + b;
      assert s[0] == a[0];
      assert s[1..] == a[1..] + [sep] + b;
      SplitAtSep(a[1..], b, sep);
    }
  }

  /** The other round trip: splitting the join of separator-free pieces gives the pieces back. */
  lemma {:induction false} SplitJoin(parts: seq<string>, sep: char)
    requires |parts| >= 1
    requires forall i :: 0 <= i < |parts| ==> sep !in parts[i]
    ensures Split(Join(parts, sep), sep) == parts
    decreases |parts|
  {
    SplitSepFree(parts[0], sep);
    if |parts| > 1 {
      SplitJoin(parts[1..], sep);
      SplitAtSep(parts[0], Join(parts[1..], sep), sep);
      assert parts == [parts[0]] + parts[1..];
    }
  }

  /**
   * `s.replace(pat, rep)` for a non-empty `pat`: the occurrences of `pat` are
   * replaced from left to right, each one after the end of the previous one.
   */
  function ReplaceAll(s: string, pat: string, rep: string): (r: string)
    requires pat != []
    ensures |rep| <= |pat| ==> |r| <= |s|
    decreases |s|
  {
    if |s| < |pat| then s
    else if s[..|pat|] == pat then rep + ReplaceAll(s[|pat|..], pat, rep)
    else [s[0]] + ReplaceAll(s[1..], pat, rep)
  }

  /** A string that does not contain `pat` is left unchanged by the replacement. */
  lemma {:induction false} ReplaceAbsent(s: string, pat: string, rep: string)
    requires pat != []
    requires !Contains(s, pat)
    ensures ReplaceAll(s, pat, rep) == s
    decreases |s|
  {
    if |s| >= |pat| {
      assert !OccursAt(s, pat, 0);
      assert s[..|pat|] != pat;
      forall i: nat | OccursAt(s[1..], pat, i)
        ensures false
      {
        assert s[1..][i..i + |pat|] == s[i + 1..i + 1 + |pat|];
        assert OccursAt(s, pat, i + 1);
      }
      ReplaceAbsent(s[1..], pat, rep);
      assert s == [s[0]] + s[1..];
    }
  }

  /**
   * Text in front of the first occurrence is kept as it is: when no
   * occurrence of `pat` in `a + b` starts inside `a`, the replacement of
   * `a + b` is `a` followed by the replacement of `b`.
   */
  lemma {:induction false} ReplaceKeepsPrefix(a: string, b: string, pat: string, rep: string)
    requires pat != []
    requires forall i :: 0 <= i < |a| ==> !OccursAt(a + b, pat, i)
    ensures ReplaceAll(a + b, pat, rep) == a + ReplaceAll(b, pat, rep)
    decreases |a|
  {
    if a == [] {
      assert a + b == b;
    } else {
      var s := a + b;
      assert s[1..] == a[1..] + b;
      if |s| < |pat| {
        assert ReplaceAll(s, pat, rep) == s;
        assert ReplaceAll(b, pat, rep) == b;
      } else {
        assert !OccursAt(s, pat, 0);
        assert s[..|pat|] != pat;
        forall i | 0 <= i < |a[1..]|
          ensures !OccursAt(a[1..] + b, pat, i)
        {
          assert !OccursAt(s, pat, i + 1);
          if i + |pat| <= |a[1..] + b| {
            assert s[i + 1..i + 1 + |pat|] == (a[1..] + b)[i..i + |pat|];
          }
        }
        ReplaceKeepsPrefix(a[1..], b, pat, rep);
        assert s == [s[0]] + (a[1..] + b);
      }
    }
  }

  /**
   * An occurrence after other text is removed too: `a + pat + r` loses its
   * `pat` when no occurrence starts inside `a` and `r` has none.
   */
  lemma ReplaceAfterText(a: string, pat: string, r: string)
    requires pat != []
    requires !Contains(r, pat)
    requires forall i :: 0 <= i < |a| ==> !OccursAt(a + (pat + r), pat, i)
    ensures ReplaceAll(a + pat + r, pat, "") == a + r
  {
    ReplaceKeepsPrefix(a, pat + r, pat, "");
    StripPrefixRoundTrip(pat, r);
    assert a + pat + r == a + (pat + r);
  }

  /** `k` copies of `pat` in a row. */
  function Repeat(pat: string, k: nat): string {
    if k == 0 then [] else pat + Repeat(pat, k - 1)
  }

  /**
   * Removal takes out every occurrence, not just the first: any number of
   * leading copies of `pat` in front of a pattern-free `r` all disappear.
   */
  lemma {:induction false} RemoveLeadingCopies(pat: string, r: string, k: nat)
    requires pat != []
    requires !Contains(r, pat)
    ensures ReplaceAll(Repeat(pat, k) + r, pat, "") == r
    decreases k
  {
    if k == 0 {
      assert Repeat(pat, k) + r == r;
      ReplaceAbsent(r, pat, "");
    } else {
      var s := Repeat(pat, k) + r;
      assert s == pat + (Repeat(pat, k - 1) + r);
      assert s[..|pat|] == pat;
      assert s[|pat|..] == Repeat(pat, k - 1) + r;
      RemoveLeadingCopies(pat, r, k - 1);
    }
  }

  /**
   * Removing every `pat` from `pat + r` gives back `r` when `r` itself does not
   * contain `pat`: the leading occurrence is consumed first, so none can
   * straddle the boundary.
   */
  lemma StripPrefixRoundTrip(pat: string, r: string)
    requires pat != []
    requires !Contains(r, pat)
    ensures ReplaceAll(pat + r, pat, "") == r
  {
    var s := pat + r;
    assert s[..|pat|] == pat;
    assert s[|pat|..] == r;
    ReplaceAbsent(r, pat, "");
  }

  /**
   * The two cases in which removing every `pat` (replacing it by `''`) is
   * easy to predict: a string without `pat` is unchanged, and a string that
   * starts with `pat` and has no further occurrence loses exactly that prefix.
   */
  lemma RemovalFacts(s: string, pat: string)
    requires pat != []
    ensures !Contains(s, pat) ==> ReplaceAll(s, pat, "") == s
    ensures |s| >= |pat| && s[..|pat|] == pat && !Contains(s[|pat|..], pat) ==> ReplaceAll(s, pat, "") == s[|pat|..]
  {
    if !Contains(s, pat) {
      ReplaceAbsent(s, pat, "");
    }
    if |s| >= |pat| && s[..|pat|] == pat && !Contains(s[|pat|..], pat) {
      ReplaceAbsent(s[|pat|..], pat, "");
    }
  }
}
