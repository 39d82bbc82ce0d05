/**
 * The string primitives of the JavaScript runtime that the backend relies on,
 * over `string` (= seq<char>): `includes`, `indexOf`, `replace` with a string
 * pattern, `trim`, `toLowerCase` (ASCII only), case-insensitive label search,
 * and the `\s` / `.` character classes of regular expressions.
 */
module Text {
  import opened Wrappers

  /** ECMAScript WhiteSpace and LineTerminator code points: what `\s` matches and `trim` strips. */
  predicate IsSpace(c: char) {
    c == '\t' || c == '\n' || c == '\U{000B}' || c == '\U{000C}' || c == '\r' || c == ' '
    || c == '\U{00A0}' || c == '\U{1680}' || ('\U{2000}' <= c <= '\U{200A}')
    || c == '\U{2028}' || c == '\U{2029}' || c == '\U{202F}' || c == '\U{205F}'
    || c == '\U{3000}' || c == '\U{FEFF}'
  }

  /** The code points a regular-expression `.` does not match. */
  predicate IsLineTerminator(c: char) {
    c == '\n' || c == '\r' || c == '\U{2028}' || c == '\U{2029}'
  }

  predicate AllSpaces(s: string) {
    forall k :: 0 <= k < |s| ==> IsSpace(s[k])
  }

  predicate IsDigit(c: char) { '0' <= c <= '9' }

  // ---------------------------------------------------------------------------
  // Lower-casing

  function LowerChar(c: char): char {
    if 'A' <= c <= 'Z' then (c as int + 32) as char else c
  }

  /** `toLowerCase`, restricted to ASCII letters. */
  function Lower(s: string): (r: string)
    ensures |r| == |s|
    ensures forall k :: 0 <= k < |s| ==> r[k] == LowerChar(s[k])
  {
    seq(|s|, k requires 0 <= k < |s| => LowerChar(s[k]))
  }

  lemma LowerAppend(a: string, b: string)
    ensures Lower(a + b) == Lower(a) + Lower(b)
  {
  }

  lemma LowerSlice(s: string, i: nat, j: nat)
    requires i <= j <= |s|
    ensures Lower(s[i..j]) == Lower(s)[i..j]
  {
  }

  // ---------------------------------------------------------------------------
  // Substring search (`includes`, `indexOf`)

  /** `p` occurs in `s` at position `i`. */
  predicate OccursAt(s: string, p: string, i: nat) {
    i + |p| <= |s| && s[i..i + |p|] == p
  }

  /** `s.includes(p)`. */
  predicate Contains(s: string, p: string) {
    exists i :: 0 <= i <= |s| - |p| && OccursAt(s, p, i)
  }

  /** `s.endsWith(x)`. */
  predicate EndsWith(s: string, x: string) {
    |x| <= |s| && s[|s| - |x|..] == x
  }

  lemma EndsWithAppend(a: string, x: string)
    ensures EndsWith(a + x, x)
  {
    assert (a + x)[|a|..] == x;
  }

  lemma OccursAtAppend(a: string, b: string, p: string, i: nat)
    requires OccursAt(a, p, i)
    ensures OccursAt(a + b, p, i) && OccursAt(b + a, p, |b| + i)
  {
    assert (a + b)[i..i + |p|] == a[i..i + |p|];
    assert (b + a)[|b| + i..|b| + i + |p|] == a[i..i + |p|];
  }

  lemma ContainsAppend(a: string, b: string, p: string)
    requires Contains(a, p)
    ensures Contains(a + b, p) && Contains(b + a, p)
  {
    var i: nat :| OccursAt(a, p, i);
    OccursAtAppend(a, b, p, i);
  }

  lemma ContainsInfix(a: string, p: string, b: string)
    ensures OccursAt(a + p + b, p, |a|) && Contains(a + p + b, p)
  {
    assert (a + p + b)[|a|..|a| + |p|] == p;
    assert OccursAt(a + p + b, p, |a|);
  }

  /** A string lacking one of the characters of `p` does not contain `p`. */
  lemma NotContainsMissing(s: string, p: string, c: char)
    requires c in p && c !in s
    ensures !Contains(s, p)
  {
    var j :| 0 <= j < |p| && p[j] == c;
    forall i | 0 <= i <= |s| - |p| ensures !OccursAt(s, p, i) {
      assert s[i + j] in s;
      assert i + |p| <= |s| ==> s[i..i + |p|][j] == s[i + j];
    }
  }

  /** The first occurrence of `p` in `s` at or after `i` (exact match). */
  function FindFrom(s: string, p: string, i: nat): (r: Option<nat>)
    decreases |s| - i
    ensures r.Some? ==> i <= r.value && OccursAt(s, p, r.value)
    ensures forall k: nat :: i <= k && (r.None? || k < r.value) ==> !OccursAt(s, p, k)
  {
    if i + |p| > |s| then None
    else if s[i..i + |p|] == p then Some(i)
    else FindFrom(s, p, i + 1)
  }

  /** `s.indexOf(p)`, with -1 as None. */
  function Find(s: string, p: string): (r: Option<nat>)
    ensures r.Some? <==> Contains(s, p)
    ensures r.Some? ==> OccursAt(s, p, r.value)
    ensures forall k: nat :: (r.None? || k < r.value) ==> !OccursAt(s, p, k)
  {
    FindFrom(s, p, 0)
  }

  /** When the first character of `p` does not occur in `a`, the first `p` in `a + p + b` is the one after `a`. */
  lemma FindAfterHead(a: string, p: string, b: string)
    requires |p| > 0 && p[0] !in a
    ensures Find(a + p + b, p) == Some(|a|)
  {
    var s := a + p + b;
    ContainsInfix(a, p, b);
    var r := Find(s, p);
    assert OccursAt(s, p, |a|);
    assert forall k :: 0 <= k < |a| ==> s[k] != p[0];
  }

  // ---------------------------------------------------------------------------
  // `replace` with a string pattern: only the first occurrence is replaced.

  function ReplaceFirst(s: string, p: string, rep: string): (r: string)
    ensures !Contains(s, p) ==> r == s
  {
    match Find(s, p)
    case None => s
    case Some(i) => s[..i] + rep + s[i + |p|..]
  }

  lemma ReplaceFirstAt(a: string, p: string, b: string, rep: string)
    requires Find(a + p + b, p) == Some(|a|)
    ensures ReplaceFirst(a + p + b, p, rep) == a + rep + b
  {
    var s := a + p + b;
    assert s[..|a|] == a;
    assert s[|a| + |p|..] == b;
  }

  // ---------------------------------------------------------------------------
  // Case-insensitive matching of ASCII labels (a regular expression's `i` flag)

  /** `p` matches `s` at `i`, ignoring ASCII case. */
  predicate CiAt(s: string, i: nat, p: string) {
    i + |p| <= |s| && forall k :: 0 <= k < |p| ==> LowerChar(s[i + k]) == LowerChar(p[k])
  }

  predicate ContainsCi(s: string, p: string) {
    exists i :: 0 <= i <= |s| - |p| && CiAt(s, i, p)
  }

  lemma CiAtIsOccursInLower(s: string, i: nat, p: string)
    ensures CiAt(s, i, p) <==> OccursAt(Lower(s), Lower(p), i)
  {
    if i + |p| <= |s| {
      if CiAt(s, i, p) {
        assert Lower(s)[i..i + |p|] == Lower(p);
      }
      if OccursAt(Lower(s), Lower(p), i) {
        forall k | 0 <= k < |p| ensures LowerChar(s[i + k]) == LowerChar(p[k]) {
          assert Lower(s)[i..i + |p|][k] == Lower(p)[k];
        }
      }
    }
  }

  lemma ContainsCiIsContainsLower(s: string, p: string)
    ensures ContainsCi(s, p) <==> Contains(Lower(s), Lower(p))
  {
    if ContainsCi(s, p) {
      var i :| 0 <= i <= |s| - |p| && CiAt(s, i, p);
      CiAtIsOccursInLower(s, i, p);
    }
    if Contains(Lower(s), Lower(p)) {
      var i :| 0 <= i <= |s| - |p| && OccursAt(Lower(s), Lower(p), i);
      CiAtIsOccursInLower(s, i, p);
    }
  }

  lemma CiAtAppend(a: string, b: string, i: nat, p: string)
    ensures CiAt(a, i, p) ==> CiAt(a + b, i, p)
    ensures CiAt(b, i, p) <==> CiAt(a + b, |a| + i, p)
  {
    if CiAt(a, i, p) {
      forall k | 0 <= k < |p| ensures LowerChar((a + b)[i + k]) == LowerChar(p[k]) {
        assert (a + b)[i + k] == a[i + k];
      }
    }
    if i + |p| <= |b| {
      assert forall j :: |a| <= j < |a| + |b| ==> (a + b)[j] == b[j - |a|];
    }
  }

  /** `p` matches itself, ignoring case. */
  lemma CiAtInfix(a: string, p: string, b: string)
    ensures CiAt(a + p + b, |a|, p)
  {
    assert forall k :: 0 <= k < |p| ==> (a + p + b)[|a| + k] == p[k];
  }

  /**
   * A match of `p` cannot run from `a` into `b` when the first character of `b`
   * matches no character of `p`: a line break, for the labels we search for.
   */
  lemma CiAtInsideHead(a: string, b: string, i: nat, p: string)
    requires |b| > 0 && forall k :: 0 <= k < |p| ==> LowerChar(p[k]) != LowerChar(b[0])
    requires i < |a| && CiAt(a + b, i, p)
    ensures i + |p| <= |a| && CiAt(a, i, p)
  {
    var s := a + b;
    assert s[|a|] == b[0];
    CiAtChar(s, i, p, |a|);
    assert forall j :: 0 <= j < |a| ==> s[j] == a[j];
  }

  lemma CiAtChar(s: string, i: nat, p: string, m: nat)
    ensures CiAt(s, i, p) && i <= m < i + |p| ==> LowerChar(s[m]) == LowerChar(p[m - i])
  {
    if CiAt(s, i, p) && i <= m < i + |p| {
      assert s[i + (m - i)] == s[m];
    }
  }

  /** The first case-insensitive match of `p` at or after `i`. */
  function FindCiFrom(s: string, p: string, i: nat): (r: Option<nat>)
    decreases |s| - i
    ensures r.Some? ==> i <= r.value && CiAt(s, r.value, p)
    ensures forall k: nat :: i <= k && (r.None? || k < r.value) ==> !CiAt(s, k, p)
  {
    if i + |p| > |s| then None
    else if CiAt(s, i, p) then Some(i)
    else FindCiFrom(s, p, i + 1)
  }

  /** With no match in `a` and none running from `a` into `b`, the first match in `a + b` is the first in `b`. */
  lemma FindCiSkipsHead(a: string, b: string, p: string)
    requires |b| > 0 && forall k :: 0 <= k < |p| ==> LowerChar(p[k]) != LowerChar(b[0])
    requires !ContainsCi(a, p)
    ensures FindCiFrom(a + b, p, 0) == (match FindCiFrom(b, p, 0)
                                         case None => None
                                         case Some(j) => Some(|a| + j))
  {
    FindCiFromHead(a, b, p, 0);
    FindCiFromAppend(a, b, p, 0);
  }

  /** No match starts inside `a`, so the search from inside `a` jumps to the end of `a`. */
  lemma FindCiFromHead(a: string, b: string, p: string, i: nat)
    requires |b| > 0 && forall k :: 0 <= k < |p| ==> LowerChar(p[k]) != LowerChar(b[0])
    requires !ContainsCi(a, p) && i <= |a|
    ensures FindCiFrom(a + b, p, i) == FindCiFrom(a + b, p, |a|)
    decreases |a| - i
  {
    if i < |a| {
      if CiAt(a + b, i, p) {
        CiAtInsideHead(a, b, i, p);
      }
      FindCiFromHead(a, b, p, i + 1);
    }
  }

  /** Searching `a + b` past `a` is searching `b`. */
  lemma FindCiFromAppend(a: string, b: string, p: string, k: nat)
    ensures FindCiFrom(a + b, p, |a| + k) == (match FindCiFrom(b, p, k)
                                               case None => None
                                               case Some(j) => Some(|a| + j))
    decreases |b| - k
  {
    CiAtAppend(a, b, k, p);
    if k + |p| <= |b| && !CiAt(b, k, p) {
      FindCiFromAppend(a, b, p, k + 1);
    }
  }

  /** The first case-insensitive match of `p` in `s`. */
  function FindCi(s: string, p: string): (r: Option<nat>)
    ensures r.Some? <==> ContainsCi(s, p)
    ensures r.Some? ==> CiAt(s, r.value, p)
    ensures forall k: nat :: (r.None? || k < r.value) ==> !CiAt(s, k, p)
  {
    FindCiFrom(s, p, 0)
  }

  /** Starting the search anywhere up to the first match still finds the first match. */
  lemma FindCiFromBefore(s: string, p: string, i: nat, f: nat)
    requires FindCi(s, p) == Some(f) && i <= f
    ensures FindCiFrom(s, p, i) == Some(f)
  {
  }

  /** `c` equals no character of `p`, ignoring case. */
  predicate Foreign(c: char, p: string) {
    forall k :: 0 <= k < |p| ==> LowerChar(p[k]) != LowerChar(c)
  }

  /** A string lacking some character of `p` (ignoring case) contains no match of `p`. */
  lemma NoCiMissingChar(s: string, p: string, j: nat)
    requires j < |p| && forall c :: c in s ==> LowerChar(c) != LowerChar(p[j])
    ensures !ContainsCi(s, p)
  {
    forall i | 0 <= i <= |s| - |p| ensures !CiAt(s, i, p) {
      assert s[i + j] in s;
    }
  }

  /** Two match-free strings joined at a character foreign to `p` stay match-free. */
  lemma NoCiJoin(a: string, b: string, p: string)
    requires !ContainsCi(a, p) && !ContainsCi(b, p)
    requires |b| > 0 && Foreign(b[0], p)
    ensures !ContainsCi(a + b, p)
  {
    FindCiSkipsHead(a, b, p);
  }

  /** Two match-free strings joined after a character foreign to `p` stay match-free. */
  lemma NoCiJoinAfter(a: string, b: string, p: string)
    requires !ContainsCi(a, p) && !ContainsCi(b, p)
    requires |a| > 0 && Foreign(a[|a| - 1], p)
    ensures !ContainsCi(a + b, p)
  {
    var s := a + b;
    forall i | 0 <= i <= |s| - |p| ensures !CiAt(s, i, p) {
      if i >= |a| {
        CiAtAppend(a, b, i - |a|, p);
      } else if i + |p| <= |a| {
        if CiAt(s, i, p) {
          forall k | 0 <= k < |p| ensures LowerChar(a[i + k]) == LowerChar(p[k]) {
            assert s[i + k] == a[i + k];
          }
          assert CiAt(a, i, p);
        }
      } else if i < |a| {
        CiAtChar(s, i, p, |a| - 1);
        assert s[|a| - 1] == a[|a| - 1];
      }
    }
  }

  /** A character that cannot start `p`, put in front of a match-free string, keeps it match-free. */
  lemma NoCiCons(c: char, b: string, p: string)
    requires |p| > 0 && LowerChar(p[0]) != LowerChar(c) && !ContainsCi(b, p)
    ensures !ContainsCi([c] + b, p)
  {
    forall i | 0 <= i <= |[c] + b| - |p| ensures !CiAt([c] + b, i, p) {
      if i > 0 {
        CiAtAppend([c], b, i - 1, p);
        assert !CiAt(b, i - 1, p);
      } else {
        assert ([c] + b)[0 + 0] == c;
      }
    }
  }

  /** A line break matches no character of a pattern that holds none. */
  lemma NewlineForeign(p: string)
    requires '\n' !in p
    ensures Foreign('\n', p)
  {
    forall k | 0 <= k < |p| ensures LowerChar(p[k]) != LowerChar('\n') {
      assert p[k] in p;
    }
  }

  lemma FindCiOpeningLine(p: string, z: string)
    requires |p| > 0 && '\n' !in p
    ensures FindCi("\n\n" + p + z, p) == Some(2)
  {
    var b := "\n\n" + p + z;
    assert b[0] == '\n' && b[1] == '\n';
    assert p[0] in p;
    assert LowerChar(p[0]) != '\n';
    CiAtChar(b, 0, p, 0);
    assert !CiAt(b, 0, p);
    CiAtChar(b, 1, p, 1);
    assert !CiAt(b, 1, p);
    CiAtInfix("\n\n", p, z);
    assert FindCiFrom(b, p, 2) == Some(2);
    assert FindCiFrom(b, p, 1) == Some(2);
  }

  /** After match-free text and two characters foreign to `p`, the first match of `p` is the one that follows. */
  lemma FindCiAfterPair(a: string, c1: char, c2: char, p: string, z: string)
    requires |p| > 0 && Foreign(c1, p) && Foreign(c2, p) && !ContainsCi(a, p)
    ensures FindCi(a + [c1, c2] + p + z, p) == Some(|a| + 2)
  {
    var b := [c1, c2] + p + z;
    assert a + b == a + [c1, c2] + p + z;
    assert b[0] == c1;
    FindCiPairHead(c1, c2, p, z);
    FindCiSkipsHead(a, b, p);
  }

  lemma FindCiPairHead(c1: char, c2: char, p: string, z: string)
    requires |p| > 0 && Foreign(c1, p) && Foreign(c2, p)
    ensures FindCi([c1, c2] + p + z, p) == Some(2)
  {
    var b := [c1, c2] + p + z;
    assert b[0] == c1 && b[1] == c2;
    CiAtChar(b, 0, p, 0);
    assert !CiAt(b, 0, p);
    CiAtChar(b, 1, p, 1);
    assert !CiAt(b, 1, p);
    CiAtInfix([c1, c2], p, z);
    assert FindCiFrom(b, p, 2) == Some(2);
    assert FindCiFrom(b, p, 1) == Some(2);
  }

  /** After match-free text and a line break, the first match of `p` is the one that opens the line. */
  lemma FindCiAfterNewline(a: string, p: string, z: string)
    requires |p| > 0 && Foreign('\n', p) && !ContainsCi(a, p)
    ensures FindCi(a + "\n" + p + z, p) == Some(|a| + 1)
  {
    var b := "\n" + p + z;
    assert a + b == a + "\n" + p + z;
    assert b[0] == '\n';
    FindCiNewlineHead(p, z);
    FindCiSkipsHead(a, b, p);
  }

  lemma FindCiNewlineHead(p: string, z: string)
    requires |p| > 0 && Foreign('\n', p)
    ensures FindCi("\n" + p + z, p) == Some(1)
  {
    var b := "\n" + p + z;
    assert b[0] == '\n';
    CiAtChar(b, 0, p, 0);
    assert !CiAt(b, 0, p);
    CiAtInfix("\n", p, z);
    assert FindCiFrom(b, p, 1) == Some(1);
  }

  /**
   * After match-free text and a blank line, the first match of `p` is the
   * occurrence that opens the next line.
   */
  lemma FindCiAfterBlankLine(a: string, p: string, z: string)
    requires |p| > 0 && '\n' !in p && !ContainsCi(a, p)
    ensures FindCi(a + "\n\n" + p + z, p) == Some(|a| + 2)
  {
    var b := "\n\n" + p + z;
    assert a + b == a + "\n\n" + p + z;
    NewlineForeign(p);
    assert b[0] == '\n';
    FindCiOpeningLine(p, z);
    FindCiSkipsHead(a, b, p);
  }

  // ---------------------------------------------------------------------------
  // Whitespace runs and `trim`

  predicate SpacesBetween(s: string, i: nat, j: nat) {
    forall k :: i <= k < j && k < |s| ==> IsSpace(s[k])
  }

  /** Greedy `\s*` from `q`: the end of the run of whitespace that starts at `q`. */
  function SkipSpaces(s: string, q: nat): (e: nat)
    requires q <= |s|
    decreases |s| - q
    ensures q <= e <= |s| && SpacesBetween(s, q, e)
    ensures e < |s| ==> !IsSpace(s[e])
  {
    if q < |s| && IsSpace(s[q]) then SkipSpaces(s, q + 1) else q
  }

  /** The start of the run of whitespace that ends `s[lo..hi]`. */
  function BackSpaces(s: string, lo: nat, hi: nat): (j: nat)
    requires lo <= hi <= |s|
    decreases hi - lo
    ensures lo <= j <= hi && SpacesBetween(s, j, hi)
    ensures j > lo ==> !IsSpace(s[j - 1])
  {
    if hi > lo && IsSpace(s[hi - 1]) then BackSpaces(s, lo, hi - 1) else hi
  }

  /** `s.trim()`: `s` without the whitespace at either end. */
  function Trim(s: string): (r: string)
    ensures r == [] || (!IsSpace(r[0]) && !IsSpace(r[|r| - 1]))
    ensures AllSpaces(s) <==> r == []
    ensures forall c :: c in r ==> c in s
  {
    var i := SkipSpaces(s, 0);
    var j := BackSpaces(s, i, |s|);
    assert AllSpaces(s) <== i == j;
    s[i..j]
  }

  /** What `\s*` skips in front of `x` does not depend on whitespace before it. */
  lemma SkipSpacesShift(w: string, x: string, q: nat)
    requires q <= |x|
    ensures SkipSpaces(w + x, |w| + q) == |w| + SkipSpaces(x, q)
    decreases |x| - q
  {
    if q < |x| && IsSpace(x[q]) {
      SkipSpacesShift(w, x, q + 1);
    }
  }

  /** `\s*` stops at the first character that is not whitespace. */
  lemma SkipSpacesStops(s: string, q: nat, m: nat)
    requires q <= m < |s| && !IsSpace(s[m])
    ensures SkipSpaces(s, q) <= m
    decreases m - q
  {
    if q < m && IsSpace(s[q]) {
      SkipSpacesStops(s, q + 1, m);
    }
  }

  lemma SkipSpacesOverSpaces(s: string, q: nat, m: nat)
    requires q <= m <= |s| && SpacesBetween(s, q, m)
    ensures SkipSpaces(s, q) == SkipSpaces(s, m)
    decreases m - q
  {
    if q < m {
      SkipSpacesOverSpaces(s, q + 1, m);
    }
  }

  /** Appending text does not move where a whitespace run inside `x` ends. */
  lemma SkipSpacesAppend(x: string, w: string, q: nat)
    requires q <= |x|
    ensures SkipSpaces(x, q) < |x| ==> SkipSpaces(x + w, q) == SkipSpaces(x, q)
    ensures SkipSpaces(x, q) == |x| ==> SkipSpaces(x + w, q) == |x| + SkipSpaces(w, 0)
    decreases |x| - q
  {
    if q < |x| && IsSpace(x[q]) {
      SkipSpacesAppend(x, w, q + 1);
    } else if q == |x| {
      SkipSpacesShift(x, w, 0);
    }
  }

  lemma BackSpacesAppend(x: string, w: string, lo: nat, hi: nat)
    requires lo <= hi <= |x|
    ensures BackSpaces(x + w, lo, hi) == BackSpaces(x, lo, hi)
    decreases hi - lo
  {
    if hi > lo && IsSpace(x[hi - 1]) {
      BackSpacesAppend(x, w, lo, hi - 1);
    }
  }

  lemma BackSpacesShift(w: string, x: string, lo: nat, hi: nat)
    requires lo <= hi <= |x|
    ensures BackSpaces(w + x, |w| + lo, |w| + hi) == |w| + BackSpaces(x, lo, hi)
    decreases hi - lo
  {
    if hi > lo && IsSpace(x[hi - 1]) {
      BackSpacesShift(w, x, lo, hi - 1);
    }
  }

  lemma BackSpacesOverSpaces(s: string, lo: nat, m: nat, hi: nat)
    requires lo <= m <= hi <= |s| && SpacesBetween(s, m, hi)
    ensures BackSpaces(s, lo, hi) == BackSpaces(s, lo, m)
    decreases hi - m
  {
    if m < hi {
      BackSpacesOverSpaces(s, lo, m, hi - 1);
    }
  }

  /** `\s*` runs over whitespace in front of `x` and on into `x`. */
  lemma SkipSpacesPrefix(w: string, x: string)
    requires AllSpaces(w)
    ensures SkipSpaces(w + x, 0) == |w| + SkipSpaces(x, 0)
  {
    var s := w + x;
    assert SpacesBetween(s, 0, |w|) by {
      forall k | 0 <= k < |w| ensures IsSpace(s[k]) {
        assert s[k] == w[k];
      }
    }
    SkipSpacesOverSpaces(s, 0, |w|);
    SkipSpacesShift(w, x, 0);
  }

  /** Whitespace in front of a string does not change its trimmed form. */
  lemma TrimLeadingSpaces(w: string, x: string)
    requires AllSpaces(w)
    ensures Trim(w + x) == Trim(x)
  {
    var s := w + x;
    SkipSpacesPrefix(w, x);
    var i := SkipSpaces(x, 0);
    BackSpacesShift(w, x, i, |x|);
    var j := BackSpaces(x, i, |x|);
    assert s[|w| + i..|w| + j] == x[i..j];
  }

  /** Trimming from inside the leading whitespace gives the same result. */
  lemma TrimAfterSpaces(t: string, k: nat)
    requires k <= |t| && SpacesBetween(t, 0, k)
    ensures Trim(t[k..]) == Trim(t)
  {
    var w, x := t[..k], t[k..];
    assert AllSpaces(w);
    TrimLeadingSpaces(w, x);
    assert w + x == t;
  }

  /** Whitespace after a string does not change its trimmed form. */
  lemma TrimTrailingSpaces(x: string, w: string)
    requires AllSpaces(w)
    ensures Trim(x + w) == Trim(x)
  {
    var s := x + w;
    SkipSpacesAppend(x, w, 0);
    var i := SkipSpaces(x, 0);
    if i == |x| {
      assert SkipSpaces(w, 0) == |w|;
    } else {
      assert SpacesBetween(s, |x|, |s|);
      BackSpacesOverSpaces(s, i, |x|, |s|);
      BackSpacesAppend(x, w, i, |x|);
      var j := BackSpaces(x, i, |x|);
      assert s[i..j] == x[i..j];
    }
  }

  /** Trimming removes a space before and a blank line after. */
  lemma TrimPadded(m: string)
    ensures Trim(" " + m + "\n\n") == Trim(m)
  {
    assert AllSpaces(" ") && AllSpaces("\n\n");
    assert " " + m + "\n\n" == " " + (m + "\n\n");
    TrimLeadingSpaces(" ", m + "\n\n");
    TrimTrailingSpaces(m, "\n\n");
  }

  /** A string with no whitespace at either end is its own trimmed form. */
  lemma TrimKeep(x: string)
    requires x == [] || (!IsSpace(x[0]) && !IsSpace(x[|x| - 1]))
    ensures Trim(x) == x
  {
  }

  // ---------------------------------------------------------------------------
  // Text free of template markup

  /** No placeholder opener `{` and no tag opener `[`. */
  predicate Unmarked(s: string) {
    '{' !in s && '[' !in s
  }

  /**
   * Prose known to be free of markup. The verifier settles membership in a
   * string literal only for short literals, so long prose is declared as a
   * concatenation of short pieces of this type.
   */
  type UnmarkedText = s: string | Unmarked(s)

  // ---------------------------------------------------------------------------
  // Number formatting (template literals `${n}`)

  function DigitChar(d: nat): char
    requires d < 10
  {
    ('0' as int + d) as char
  }

  /** The decimal representation of `n`. */
  function NatToString(n: nat): (r: string)
    ensures |r| > 0 && forall k :: 0 <= k < |r| ==> IsDigit(r[k])
  {
    if n < 10 then [DigitChar(n)] else NatToString(n / 10) + [DigitChar(n % 10)]
  }
}
