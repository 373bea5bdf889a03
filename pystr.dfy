/**
 * The few operations of Python's `str` that the loader relies on, over strings as
 * sequences of code points: `p in s`, `s.replace(p, q)`, `s.split(sep)`,
 * `sep.join(parts)`, `s.strip()` and `c.isspace()`.
 */
module PyStr {

  /** Python's `c.isspace()`: the characters `str.split()` and `str.strip()` treat as whitespace. */
  predicate IsSpace(c: char) {
    || ('\U{9}' <= c <= '\U{D}')
    || ('\U{1C}' <= c <= '\U{20}')
    || c == '\U{85}' || c == '\U{A0}' || c == '\U{1680}'
    || ('\U{2000}' <= c <= '\U{200A}')
    || c == '\U{2028}' || c == '\U{2029}' || c == '\U{202F}' || c == '\U{205F}' || c == '\U{3000}'
  }

  /** `p` occurs in `s` starting at index `i`. */
  predicate OccursAt(s: string, p: string, i: nat) {
    i + |p| <= |s| && s[i..i + |p|] == p
  }

  /** Python's `p in s` on strings: `p` occurs somewhere in `s`. */
  predicate Contains(s: string, p: string) {
    exists i | 0 <= i <= |s| :: OccursAt(s, p, i)
  }

  /** A one-character pattern occurs exactly when the character does. */
  lemma ContainsChar(s: string, c: char)
    ensures Contains(s, [c]) <==> c in s
  {
    if c in s {
      var i :| 0 <= i < |s| && s[i] == c;
      assert OccursAt(s, [c], i);
    }
    if Contains(s, [c]) {
      var i :| 0 <= i <= |s| && OccursAt(s, [c], i);
      assert s[i] == c;
    }
  }

  /** An occurrence in the tail of a string is an occurrence in the string. */
  lemma ContainsTail(s: string, p: string)
    requires |s| > 0 && Contains(s[1..], p)
    ensures Contains(s, p)
  {
    var i :| 0 <= i <= |s[1..]| && OccursAt(s[1..], p, i);
    assert s[i + 1..i + 1 + |p|] == s[1..][i..i + |p|];
    assert OccursAt(s, p, i + 1);
  }

  /**
   * Python's `s.replace(pat, rep)`: scans left to right and replaces every
   * non-overlapping occurrence of `pat`; the replacement text is not rescanned.
   */
  function Replace(s: string, pat: string, rep: string): string
    requires |pat| > 0
    decreases |s|
  {
    if |s| < |pat| then s
    else if s[..|pat|] == pat then rep + Replace(s[|pat|..], pat, rep)
    else [s[0]] + Replace(s[1..], pat, rep)
  }

  /** Python's `s.split(sep)` with an explicit, non-empty separator. */
  function Split(s: string, sep: string): (parts: seq<string>)
    requires |sep| > 0
    ensures |parts| >= 1
    decreases |s|
  {
    if |s| < |sep| then [s]
    else if s[..|sep|] == sep then [[]] + Split(s[|sep|..], sep)
    else
      var rest := Split(s[1..], sep);
      [[s[0]] + rest[0]] + rest[1..]
  }

  /** Python's `sep.join(parts)`. */
  function Join(sep: string, parts: seq<string>): string
    requires |parts| >= 1
  {
    if |parts| == 1 then parts[0] else parts[0] + sep + Join(sep, parts[1..])
  }

  /** Joining the pieces of a split with the separator gives back the string. */
  lemma {:induction false} JoinSplit(s: string, sep: string)
    requires |sep| > 0
    ensures Join(sep, Split(s, sep)) == s
    decreases |s|
  {
    if |s| < |sep| {
    } else if s[..|sep|] == sep {
      JoinSplit(s[|sep|..], sep);
      JoinEmptyHead(sep, Split(s[|sep|..], sep));
      assert s == sep + s[|sep|..];
    } else {
      JoinSplit(s[1..], sep);
      JoinCons(sep, s[0], Split(s[1..], sep));
      assert s == [s[0]] + s[1..];
    }
  }

  /** An empty first part puts the separator at the head of the joined string. */
  lemma JoinEmptyHead(sep: string, parts: seq<string>)
    requires |parts| >= 1
    ensures Join(sep, [[]] + parts) == sep + Join(sep, parts)
  {
    assert ([[]] + parts)[1..] == parts;
  }

  /** Prepending a character to the first part prepends it to the joined string. */
  lemma JoinCons(sep: string, c: char, parts: seq<string>)
    requires |parts| >= 1
    ensures Join(sep, [[c] + parts[0]] + parts[1..]) == [c] + Join(sep, parts)
  {
    var ps := [[c] + parts[0]] + parts[1..];
    if |parts| > 1 {
      assert ps[1..] == parts[1..];
      assert Join(sep, ps) == ([c] + parts[0]) + sep + Join(sep, parts[1..]);
    }
  }

  /** `s.replace(pat, rep)` is `rep.join(s.split(pat))`, the same scan told twice. */
  lemma {:induction false} ReplaceIsJoinOfSplit(s: string, pat: string, rep: string)
    requires |pat| > 0
    ensures Replace(s, pat, rep) == Join(rep, Split(s, pat))
    decreases |s|
  {
    if |s| < |pat| {
    } else if s[..|pat|] == pat {
      ReplaceIsJoinOfSplit(s[|pat|..], pat, rep);
      JoinEmptyHead(rep, Split(s[|pat|..], pat));
    } else {
      ReplaceIsJoinOfSplit(s[1..], pat, rep);
      JoinCons(rep, s[0], Split(s[1..], pat));
    }
  }

  /** A string in which the pattern does not occur is left as it is. */
  lemma {:induction false} ReplaceAbsent(s: string, pat: string, rep: string)
    requires |pat| > 0 && !Contains(s, pat)
    ensures Replace(s, pat, rep) == s
    decreases |s|
  {
    if |s| >= |pat| {
      assert !OccursAt(s, pat, 0);
      if Contains(s[1..], pat) {
        ContainsTail(s, pat);
      }
      ReplaceAbsent(s[1..], pat, rep);
    }
  }

  /**
   * The first piece of `s.split(sep)` is the longest prefix of `s` in which `sep`
   * does not start: it is all of `s`, or `sep` follows it.
   */
  lemma {:induction false} SplitFirst(s: string, sep: string)
    requires |sep| > 0
    ensures var p := Split(s, sep)[0];
      && p <= s
      && !Contains(p, sep)
      && (forall i | 0 <= i < |p| :: !OccursAt(s, sep, i))
      && (p == s || OccursAt(s, sep, |p|))
    decreases |s|
  {
    var p := Split(s, sep)[0];
    if |s| < |sep| {
      assert !Contains(p, sep);
    } else if s[..|sep|] == sep {
      assert p == [];
      assert OccursAt(s, sep, 0);
    } else {
      SplitFirst(s[1..], sep);
      var q := Split(s[1..], sep)[0];
      SplitStep(s, sep);
      NoOccurrenceAfterHead(s, sep, q);
      forall i | 0 < i < |p|
        ensures !OccursAt(s, sep, i)
      {
        OccursShift(s, sep, i);
      }
      if p != s {
        OccursShift(s, sep, |p|);
      }
    }
  }

  /**
   * The pieces after the first: none when the first piece is all of `s`; otherwise
   * the split of what follows the first piece and the separator after it. With
   * `SplitFirst` this fixes every piece of `s.split(sep)`.
   */
  lemma {:induction false} SplitRest(s: string, sep: string)
    requires |sep| > 0
    ensures var parts := Split(s, sep); var p := parts[0];
      && (p == s ==> |parts| == 1)
      && (p != s ==> |p| + |sep| <= |s| && parts[1..] == Split(s[|p| + |sep|..], sep))
    decreases |s|
  {
    if |s| < |sep| {
    } else if s[..|sep|] == sep {
      SplitSkip(s, sep);
    } else {
      SplitRest(s[1..], sep);
      var q := Split(s[1..], sep)[0];
      SplitStep(s, sep);
      var p := [s[0]] + q;
      if q != s[1..] {
        assert p != s && |p| + |sep| <= |s|;
        assert s[|p| + |sep|..] == s[1..][|q| + |sep|..];
        assert Split(s, sep)[1..] == Split(s[1..], sep)[1..] == Split(s[|p| + |sep|..], sep);
      } else {
        assert p == s;
      }
    }
  }

  /** A split step over a separator at the head of `s`: it ends an empty first piece. */
  lemma SplitSkip(s: string, sep: string)
    requires |sep| > 0 && |s| >= |sep| && s[..|sep|] == sep
    ensures Split(s, sep)[0] == [] && Split(s, sep)[1..] == Split(s[|sep|..], sep)
  {
  }

  /** A split step past a character that does not start `sep`: the character joins the first piece. */
  lemma SplitStep(s: string, sep: string)
    requires |sep| > 0 && |s| >= |sep| && s[..|sep|] != sep
    ensures Split(s, sep)[0] == [s[0]] + Split(s[1..], sep)[0]
    ensures Split(s, sep)[1..] == Split(s[1..], sep)[1..]
  {
  }

  /** An occurrence past the head of `s` is an occurrence in its tail, one index earlier. */
  lemma OccursShift(s: string, sep: string, i: nat)
    requires 0 < i <= |s|
    ensures OccursAt(s, sep, i) <==> OccursAt(s[1..], sep, i - 1)
  {
    if i + |sep| <= |s| {
      assert s[1..][i - 1..i - 1 + |sep|] == s[i..i + |sep|];
    }
  }

  /** Helper of SplitFirst: prepending a character that does not start `sep` adds no occurrence. */
  lemma NoOccurrenceAfterHead(s: string, sep: string, q: string)
    requires |sep| > 0 && |s| >= |sep| && s[..|sep|] != sep
    requires q <= s[1..] && !Contains(q, sep)
    ensures !Contains([s[0]] + q, sep)
  {
    var p := [s[0]] + q;
    if Contains(p, sep) {
      var i :| 0 <= i <= |p| && OccursAt(p, sep, i);
      if i > 0 {
        assert q[i - 1..i - 1 + |sep|] == p[i..i + |sep|];
        assert OccursAt(q, sep, i - 1);
      }
    }
  }

  /** Python's `s.lstrip()`: drops the leading whitespace. */
  function LStrip(s: string): (r: string)
    ensures |r| <= |s| && r == s[|s| - |r|..]
    ensures forall k | 0 <= k < |s| - |r| :: IsSpace(s[k])
    ensures r == [] || !IsSpace(r[0])
  {
    if s != [] && IsSpace(s[0]) then
      var r := LStrip(s[1..]);
      assert s[|s| - |r|..] == s[1..][|s| - 1 - |r|..];
      assert forall k | 1 <= k < |s| - |r| :: s[k] == s[1..][k - 1];
      r
    else s
  }

  /** Python's `s.rstrip()`: drops the trailing whitespace. */
  function RStrip(s: string): (r: string)
    ensures r <= s
    ensures forall k | |r| <= k < |s| :: IsSpace(s[k])
    ensures r == [] || !IsSpace(r[|r| - 1])
  {
    if s != [] && IsSpace(s[|s| - 1]) then RStrip(s[..|s| - 1]) else s
  }

  /**
   * Python's `s.strip()`: the piece of `s` left once the whitespace at both ends is
   * dropped; it neither starts nor ends with whitespace, and only whitespace was dropped.
   */
  function Strip(s: string): (r: string)
    ensures r == [] || (!IsSpace(r[0]) && !IsSpace(r[|r| - 1]))
    ensures exists i | 0 <= i <= |s| - |r| :: StrippedAt(s, r, i)
  {
    var l := LStrip(s);
    var r := RStrip(l);
    StrippedInside(s, l, r);
    r
  }

  /** Helper of Strip: whitespace dropped from the end of a suffix is dropped from `s`. */
  lemma StrippedInside(s: string, l: string, r: string)
    requires |l| <= |s| && l == s[|s| - |l|..] && forall k | 0 <= k < |s| - |l| :: IsSpace(s[k])
    requires l == [] || !IsSpace(l[0])
    requires r <= l && forall k | |r| <= k < |l| :: IsSpace(l[k])
    requires r == [] || !IsSpace(r[|r| - 1])
    ensures StrippedAt(s, r, |s| - |l|)
    ensures r == [] || (!IsSpace(r[0]) && !IsSpace(r[|r| - 1]))
  {
    if r != [] {
      assert r[0] == l[0];
    }
    var i := |s| - |l|;
    forall k | i + |r| <= k < |s|
      ensures IsSpace(s[k])
    {
      assert s[k] == l[k - i];
    }
    assert s[i..i + |r|] == l[..|r|];
  }

  /** `r` stands at index `i` of `s`, and everything of `s` around it is whitespace. */
  ghost predicate StrippedAt(s: string, r: string, i: nat)
    requires i + |r| <= |s|
  {
    && s[i..i + |r|] == r
    && (forall k | 0 <= k < i :: IsSpace(s[k]))
    && (forall k | i + |r| <= k < |s| :: IsSpace(s[k]))
  }

  /** A string of whitespace only strips to the empty string, and nothing else does. */
  lemma StripEmpty(s: string)
    ensures Strip(s) == [] <==> forall k | 0 <= k < |s| :: IsSpace(s[k])
  {
    var r := Strip(s);
    var i :| 0 <= i <= |s| - |r| && StrippedAt(s, r, i);
    if r != [] {
      assert s[i] == r[0];
    }
  }
}
