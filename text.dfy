/** Strings as the classifier sees them: JavaScript's `String.prototype.includes`
    (substring containment) and the ASCII part of `toLowerCase` / `toUpperCase`. */
module Text {

  /** `p` is a prefix of `s`. */
  predicate StartsWith(s: string, p: string) {
    |p| <= |s| && s[..|p|] == p
  }

  /** `s.includes(p)`: `p` occurs somewhere in `s` as a contiguous run of characters.
      Raw substring semantics: no notion of words, so "white" contains "hit". */
  predicate Contains(s: string, p: string)
    decreases |s|
  {
    StartsWith(s, p) || (|s| > 0 && Contains(s[1..], p))
  }

  /** `p` occurs in `s` starting at index `i`: the reference meaning of `includes`. */
  ghost predicate OccursAt(s: string, p: string, i: int) {
    0 <= i && i + |p| <= |s| && s[i..i + |p|] == p
  }

  lemma {:induction false} ContainsHasOccurrence(s: string, p: string) returns (i: nat)
    requires Contains(s, p)
    ensures OccursAt(s, p, i)
    decreases |s|
  {
    if StartsWith(s, p) {
      i := 0;
    } else {
      var j := ContainsHasOccurrence(s[1..], p);
      assert s[1..][j..j + |p|] == s[j + 1..j + 1 + |p|];
      i := j + 1;
    }
  }

  lemma {:induction false} OccurrenceGivesContains(s: string, p: string, i: int)
    requires OccursAt(s, p, i)
    ensures Contains(s, p)
    decreases i
  {
    if i > 0 {
      assert s[1..][i - 1..i - 1 + |p|] == s[i..i + |p|];
      OccurrenceGivesContains(s[1..], p, i - 1);
    }
  }

  /** `Contains` agrees with the occurrence-based definition, in both directions. */
  lemma ContainsIffOccurs(s: string, p: string)
    ensures Contains(s, p) <==> exists i :: OccursAt(s, p, i)
  {
    if Contains(s, p) {
      var i := ContainsHasOccurrence(s, p);
    }
    if i :| OccursAt(s, p, i) {
      OccurrenceGivesContains(s, p, i);
    }
  }

  /** A phrase is never found in a shorter text. */
  lemma ContainsNeedsRoom(s: string, p: string)
    requires Contains(s, p)
    ensures |p| <= |s|
  {
    var i := ContainsHasOccurrence(s, p);
  }

  /** Containment is transitive: whatever occurs in a phrase that occurs in `s` occurs in `s`. */
  lemma ContainsTransitive(s: string, q: string, p: string)
    requires Contains(s, q) && Contains(q, p)
    ensures Contains(s, p)
  {
    var i := ContainsHasOccurrence(s, q);
    var j := ContainsHasOccurrence(q, p);
    forall k | 0 <= k < |p|
      ensures s[i + j..i + j + |p|][k] == p[k]
    {
      assert p[k] == q[j + k] == s[i..i + |q|][j + k];
    }
    OccurrenceGivesContains(s, p, i + j);
  }

  /** Appending text after `a` never removes a phrase found in `a`. */
  lemma ContainsInPrefix(a: string, b: string, p: string)
    requires Contains(a, p)
    ensures Contains(a + b, p)
  {
    var i := ContainsHasOccurrence(a, p);
    assert (a + b)[i..i + |p|] == a[i..i + |p|];
    OccurrenceGivesContains(a + b, p, i);
  }

  /** Prepending text before `b` never removes a phrase found in `b`. */
  lemma ContainsInSuffix(a: string, b: string, p: string)
    requires Contains(b, p)
    ensures Contains(a + b, p)
  {
    var i := ContainsHasOccurrence(b, p);
    assert (a + b)[|a| + i..|a| + i + |p|] == b[i..i + |p|];
    OccurrenceGivesContains(a + b, p, |a| + i);
  }

  /** Every pair of neighbouring characters of `s` is one of `pairs`. */
  predicate PairsWithin(s: string, pairs: set<(char, char)>) {
    forall i :: 0 <= i < |s| - 1 ==> (s[i], s[i + 1]) in pairs
  }

  /** A phrase found in `s` has no pair of neighbouring characters that `s` lacks. */
  lemma ContainedPairsWithin(s: string, p: string, pairs: set<(char, char)>)
    ensures Contains(s, p) && PairsWithin(s, pairs) ==> PairsWithin(p, pairs)
  {
    if Contains(s, p) && PairsWithin(s, pairs) {
      var i := ContainsHasOccurrence(s, p);
      forall j | 0 <= j < |p| - 1
        ensures (p[j], p[j + 1]) in pairs
      {
        assert p[j] == s[i..i + |p|][j] && p[j + 1] == s[i..i + |p|][j + 1];
      }
    }
  }

  predicate IsUpperAscii(c: char) {
    'A' <= c <= 'Z'
  }

  predicate IsLowerAscii(c: char) {
    'a' <= c <= 'z'
  }

  /** The ASCII part of `toLowerCase` on one character. */
  function LowerChar(c: char): (d: char)
    ensures !IsUpperAscii(d)
    ensures IsUpperAscii(c) ==> d as int == c as int + 32
    ensures !IsUpperAscii(c) ==> d == c
  {
    if IsUpperAscii(c) then (c as int + 32) as char else c
  }

  /** The ASCII part of `toUpperCase` on one character. */
  function UpperChar(c: char): (d: char)
    ensures !IsLowerAscii(d)
    ensures IsLowerAscii(c) ==> d as int == c as int - 32
    ensures !IsLowerAscii(c) ==> d == c
  {
    if IsLowerAscii(c) then (c as int - 32) as char else c
  }

  /** `toLowerCase`, restricted to ASCII letters. */
  function ToLower(s: string): (r: string)
    ensures |r| == |s|
    ensures forall i :: 0 <= i < |s| ==> r[i] == LowerChar(s[i])
  {
    if s == [] then [] else [LowerChar(s[0])] + ToLower(s[1..])
  }

  /** `toUpperCase`, restricted to ASCII letters. */
  function ToUpper(s: string): (r: string)
    ensures |r| == |s|
    ensures forall i :: 0 <= i < |s| ==> r[i] == UpperChar(s[i])
  {
    if s == [] then [] else [UpperChar(s[0])] + ToUpper(s[1..])
  }

  /** Lower-casing a concatenation lower-cases each part. */
  lemma {:induction false} ToLowerAppend(a: string, b: string)
    ensures ToLower(a + b) == ToLower(a) + ToLower(b)
  {
    if a != [] {
      assert (a + b)[1..] == a[1..] + b;
      ToLowerAppend(a[1..], b);
    }
  }

  /** Upper-casing ignores an earlier lower-casing. */
  lemma {:induction false} ToUpperOfLower(s: string)
    ensures ToUpper(ToLower(s)) == ToUpper(s)
  {
    if s != [] {
      ToUpperOfLower(s[1..]);
    }
  }

  /** The neighbouring pairs of a lower-cased text are the lower-cased pairs of the text. */
  lemma LowerPairsWithin(s: string, pairs: set<(char, char)>)
    requires forall i :: 0 <= i < |s| - 1 ==> (LowerChar(s[i]), LowerChar(s[i + 1])) in pairs
    ensures PairsWithin(ToLower(s), pairs)
  {
  }

  /** A phrase found in the lower-cased `b` is still found once any text is put in front of `b`. */
  lemma LowerContainsInSuffix(a: string, b: string, p: string)
    requires Contains(ToLower(b), p)
    ensures Contains(ToLower(a + b), p)
  {
    ToLowerAppend(a, b);
    ContainsInSuffix(ToLower(a), ToLower(b), p);
  }

  /** The characters that `String.prototype.trim` removes, restricted to ASCII. */
  predicate IsSpace(c: char) {
    c == ' ' || c == '\t' || c == '\n' || c == '\r' || c == '\U{000B}' || c == '\U{000C}'
  }

  /** `s.trim().length === 0`. */
  predicate IsBlank(s: string) {
    forall i :: 0 <= i < |s| ==> IsSpace(s[i])
  }
}
