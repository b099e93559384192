/** String operations the log counter relies on: Python's `sub in s`
    substring test and the ASCII part of `str.upper()` / `str.lower()`. */
module Text {

  /** `sub` occurs in `s` starting at index `i`. */
  predicate OccursAt(s: string, sub: string, i: int) {
    0 <= i && i + |sub| <= |s| && s[i..i + |sub|] == sub
  }

  /** Python's `sub in s`: some slice of `s` equals `sub`. */
  predicate Contains(s: string, sub: string) {
    exists i :: 0 <= i <= |s| - |sub| && OccursAt(s, sub, i)
  }

  /** `sub` occurs in `pre + sub + post` right after `pre`. */
  lemma OccursAfterPrefix(pre: string, sub: string, post: string)
    ensures OccursAt(pre + sub + post, sub, |pre|)
  {
    var s := pre + sub + post;
    assert s[|pre|..|pre| + |sub|] == sub;
  }

  /** A string is contained in another of the same length only when they are equal. */
  lemma ContainsSameLength(s: string, sub: string)
    requires |s| == |sub|
    ensures Contains(s, sub) <==> s == sub
  {
    assert s[0..|s|] == s;
    if s == sub {
      assert OccursAt(s, sub, 0);
    }
  }

  /** ASCII upper-casing of one character; every other character is kept. */
  function UpperChar(c: char): char {
    if 'a' <= c <= 'z' then (c as int - 32) as char else c
  }

  /** ASCII lower-casing of one character; every other character is kept. */
  function LowerChar(c: char): char {
    if 'A' <= c <= 'Z' then (c as int + 32) as char else c
  }

  /** `s.upper()`, restricted to the ASCII letters. */
  function Upper(s: string): (r: string)
    ensures |r| == |s|
    ensures forall i :: 0 <= i < |s| ==> r[i] == UpperChar(s[i])
    ensures SameIgnoringCase(r, s)
    ensures forall i :: 0 <= i < |r| ==> !('a' <= r[i] <= 'z')
  {
    seq(|s|, i requires 0 <= i < |s| => UpperChar(s[i]))
  }

  /** `s.lower()`, restricted to the ASCII letters. */
  function Lower(s: string): (r: string)
    ensures |r| == |s|
    ensures forall i :: 0 <= i < |s| ==> r[i] == LowerChar(s[i])
    ensures SameIgnoringCase(r, s)
    ensures forall i :: 0 <= i < |r| ==> !('A' <= r[i] <= 'Z')
  {
    seq(|s|, i requires 0 <= i < |s| => LowerChar(s[i]))
  }

  /** Reference notion of "equal up to ASCII case", character by character. */
  predicate SameIgnoringCase(a: string, b: string) {
    |a| == |b| && forall k :: 0 <= k < |a| ==> LowerChar(a[k]) == LowerChar(b[k])
  }

  /** `sub` occurs in `s` at index `i`, up to ASCII case. */
  predicate OccursAtIgnoringCase(s: string, sub: string, i: int) {
    0 <= i && i + |sub| <= |s| && SameIgnoringCase(s[i..i + |sub|], sub)
  }

  /** Case-insensitive substring test, stated without Upper or Lower. */
  predicate ContainsIgnoringCase(s: string, sub: string) {
    exists i :: 0 <= i <= |s| - |sub| && OccursAtIgnoringCase(s, sub, i)
  }

  /** Upper-casing two characters makes them equal exactly when lower-casing does. */
  lemma CaseMapsAgree(a: char, b: char)
    ensures UpperChar(a) == UpperChar(b) <==> LowerChar(a) == LowerChar(b)
  {
  }

  /** Case mapping commutes with slicing. */
  lemma UpperSlice(s: string, i: int, j: int)
    requires 0 <= i <= j <= |s|
    ensures Upper(s)[i..j] == Upper(s[i..j])
  {
  }

  lemma LowerSlice(s: string, i: int, j: int)
    requires 0 <= i <= j <= |s|
    ensures Lower(s)[i..j] == Lower(s[i..j])
  {
  }

  /** Upper-cased strings compare equal exactly when they agree up to case. */
  lemma UpperEqIff(a: string, b: string)
    requires |a| == |b|
    ensures Upper(a) == Upper(b) <==> SameIgnoringCase(a, b)
  {
    if Upper(a) == Upper(b) {
      forall k | 0 <= k < |a| ensures LowerChar(a[k]) == LowerChar(b[k]) {
        assert Upper(a)[k] == Upper(b)[k];
        CaseMapsAgree(a[k], b[k]);
      }
    }
    if SameIgnoringCase(a, b) {
      forall k | 0 <= k < |a| ensures Upper(a)[k] == Upper(b)[k] {
        CaseMapsAgree(a[k], b[k]);
      }
    }
  }

  /** Lower-cased strings compare equal exactly when they agree up to case. */
  lemma LowerEqIff(a: string, b: string)
    requires |a| == |b|
    ensures Lower(a) == Lower(b) <==> SameIgnoringCase(a, b)
  {
    if Lower(a) == Lower(b) {
      forall k | 0 <= k < |a| ensures LowerChar(a[k]) == LowerChar(b[k]) {
        assert Lower(a)[k] == Lower(b)[k];
      }
    }
  }

  /** Searching the upper-cased line for an upper-case word is a case-insensitive search. */
  lemma ContainsUpperIff(s: string, sub: string)
    ensures Contains(Upper(s), Upper(sub)) <==> ContainsIgnoringCase(s, sub)
  {
    var n := |sub|;
    if Contains(Upper(s), Upper(sub)) {
      var i :| 0 <= i <= |s| - n && OccursAt(Upper(s), Upper(sub), i);
      UpperSlice(s, i, i + n);
      UpperEqIff(s[i..i + n], sub);
      assert OccursAtIgnoringCase(s, sub, i);
    }
    if ContainsIgnoringCase(s, sub) {
      var i :| 0 <= i <= |s| - n && OccursAtIgnoringCase(s, sub, i);
      UpperSlice(s, i, i + n);
      UpperEqIff(s[i..i + n], sub);
      assert OccursAt(Upper(s), Upper(sub), i);
    }
  }

  /** Searching the lower-cased line for a lower-case word is a case-insensitive search. */
  lemma ContainsLowerIff(s: string, sub: string)
    ensures Contains(Lower(s), Lower(sub)) <==> ContainsIgnoringCase(s, sub)
  {
    var n := |sub|;
    if Contains(Lower(s), Lower(sub)) {
      var i :| 0 <= i <= |s| - n && OccursAt(Lower(s), Lower(sub), i);
      LowerSlice(s, i, i + n);
      LowerEqIff(s[i..i + n], sub);
      assert OccursAtIgnoringCase(s, sub, i);
    }
    if ContainsIgnoringCase(s, sub) {
      var i :| 0 <= i <= |s| - n && OccursAtIgnoringCase(s, sub, i);
      LowerSlice(s, i, i + n);
      LowerEqIff(s[i..i + n], sub);
      assert OccursAt(Lower(s), Lower(sub), i);
    }
  }

  /** An exact occurrence is also an occurrence up to case. */
  lemma ContainsThenIgnoringCase(s: string, sub: string)
    requires Contains(s, sub)
    ensures ContainsIgnoringCase(s, sub)
  {
    var i :| 0 <= i <= |s| - |sub| && OccursAt(s, sub, i);
    assert OccursAtIgnoringCase(s, sub, i);
  }

  /** A slice of a slice is a slice of the whole. */
  lemma SliceOfSlice(s: string, i: nat, m: nat, j: nat, n: nat)
    requires i + m <= |s| && j + n <= m
    ensures s[i..i + m][j..j + n] == s[i + j..i + j + n]
  {
    var a, b := s[i..i + m][j..j + n], s[i + j..i + j + n];
    forall k | 0 <= k < n ensures a[k] == b[k] {
    }
  }

  /** An occurrence up to case inside an exact occurrence is an occurrence up to case. */
  lemma ContainsIgnoringCaseTransitive(s: string, t: string, u: string)
    requires Contains(s, t) && ContainsIgnoringCase(t, u)
    ensures ContainsIgnoringCase(s, u)
  {
    var i :| 0 <= i <= |s| - |t| && OccursAt(s, t, i);
    var j :| 0 <= j <= |t| - |u| && OccursAtIgnoringCase(t, u, j);
    SliceOfSlice(s, i, |t|, j, |u|);
    assert OccursAtIgnoringCase(s, u, i + j);
  }

  /** A word holding a character that `s` lacks does not occur in `s`. */
  lemma MissingCharNotContained(s: string, sub: string, ch: char)
    requires ch in sub && ch !in s
    ensures !Contains(s, sub)
  {
    var k :| 0 <= k < |sub| && sub[k] == ch;
    forall i | 0 <= i <= |s| - |sub| ensures !OccursAt(s, sub, i) {
      assert s[i..i + |sub|][k] == s[i + k];
    }
  }

  /** Appending a character that `sub` does not hold neither creates nor removes an occurrence of `sub`. */
  lemma ContainsAppendChar(s: string, sub: string, ch: char)
    requires ch !in sub
    ensures Contains(s + [ch], sub) <==> Contains(s, sub)
  {
    var t := s + [ch];
    if |sub| == 0 {
      assert OccursAt(s, sub, 0) && OccursAt(t, sub, 0);
    } else if Contains(t, sub) {
      var i :| 0 <= i <= |t| - |sub| && OccursAt(t, sub, i);
      assert sub[|sub| - 1] == t[i + |sub| - 1];
      assert t[|s|] == ch;
      assert i + |sub| <= |s|;
      assert t[i..i + |sub|] == s[i..i + |sub|];
      assert OccursAt(s, sub, i);
    }
    if Contains(s, sub) {
      var i :| 0 <= i <= |s| - |sub| && OccursAt(s, sub, i);
      assert t[i..i + |sub|] == s[i..i + |sub|];
      assert OccursAt(t, sub, i);
    }
  }

  /** Case mapping acts on an appended character on its own. */
  lemma CaseMapAppendChar(s: string, ch: char)
    ensures Upper(s + [ch]) == Upper(s) + [UpperChar(ch)]
    ensures Lower(s + [ch]) == Lower(s) + [LowerChar(ch)]
  {
  }
}
