/** The two `java.lang.String` operations the key-listing engine is built from. */
module Strings {
  import opened Outcomes

  /** `d[k..]` matches `s` from index `i + k` on, compared character by character. */
  predicate MatchesFrom(s: string, d: string, i: nat, k: nat)
    decreases |d| - k
  {
    k >= |d| || (i + k < |s| && s[i + k] == d[k] && MatchesFrom(s, d, i, k + 1))
  }

  /** `s.startsWith(p)`. */
  predicate StartsWith(s: string, p: string) {
    |p| <= |s| && MatchesFrom(s, p, 0, 0)
  }

  /** `d` occurs in `s` at index `i`. */
  predicate OccursAt(s: string, d: string, i: int) {
    0 <= i && i + |d| <= |s| && MatchesFrom(s, d, i, 0)
  }

  /** The decimal digits of a natural number, most significant first, without leading zeros. */
  function Digits(n: nat): (r: string)
    ensures |r| >= 1 && forall i :: 0 <= i < |r| ==> '0' <= r[i] <= '9'
    decreases n
  {
    if n < 10 then [(48 + n) as char] else Digits(n / 10) + [(48 + n % 10) as char]
  }

  /** Java's decimal form of an integer: a minus sign for a negative number, then its digits. */
  function DecimalString(n: int): (r: string)
    ensures |r| >= 1
    ensures n >= 0 ==> forall i :: 0 <= i < |r| ==> '0' <= r[i] <= '9'
    ensures n < 0 ==> r[0] == '-'
  {
    if n < 0 then "-" + Digits(-n) else Digits(n)
  }

  /**
   * `s.indexOf(d, from)` for a non-empty `d`: the first index at or after `from` where `d` occurs,
   * if any. (Java answers `s.length()` for an empty `d` searched past the end; the listing never
   * searches for an empty delimiter.)
   */
  function IndexOf(s: string, d: string, from: nat): (r: Option<nat>)
    requires d != []
    ensures r.Some? ==> from <= r.value && r.value + |d| <= |s|
    decreases |s| - from
  {
    if from + |d| > |s| then None
    else if MatchesFrom(s, d, from, 0) then Some(from)
    else IndexOf(s, d, from + 1)
  }

  /** Character-by-character matching agrees with comparing every remaining position. */
  lemma {:induction false} MatchesFromMeaning(s: string, d: string, i: nat, k: nat)
    requires k <= |d|
    ensures MatchesFrom(s, d, i, k) <==>
      (k == |d| || i + |d| <= |s|) && forall j :: k <= j < |d| ==> s[i + j] == d[j]
    decreases |d| - k
  {
    if k < |d| {
      MatchesFromMeaning(s, d, i, k + 1);
    }
  }

  /** `s` starts with `p` exactly when the first `|p|` characters of `s` are `p`. */
  lemma StartsWithMeaning(s: string, p: string)
    ensures StartsWith(s, p) <==> |p| <= |s| && forall j :: 0 <= j < |p| ==> s[j] == p[j]
  {
    MatchesFromMeaning(s, p, 0, 0);
  }

  /** `d` occurs at `i` exactly when the characters of `s` from `i` on spell `d`. */
  lemma OccursAtMeaning(s: string, d: string, i: int)
    ensures OccursAt(s, d, i) <==>
      0 <= i && i + |d| <= |s| && forall j :: 0 <= j < |d| ==> s[i + j] == d[j]
  {
    if 0 <= i {
      MatchesFromMeaning(s, d, i, 0);
    }
  }

  /**
   * `indexOf` finds the first occurrence: the index it returns, if any, holds an occurrence and no
   * earlier index at or after `from` does; when it finds none, no index at or after `from` does.
   */
  lemma {:induction false} IndexOfMeaning(s: string, d: string, from: nat)
    requires d != []
    ensures IndexOf(s, d, from).Some? ==>
      from <= IndexOf(s, d, from).value && OccursAt(s, d, IndexOf(s, d, from).value)
    ensures IndexOf(s, d, from).Some? ==>
      forall j :: from <= j < IndexOf(s, d, from).value ==> !OccursAt(s, d, j)
    ensures IndexOf(s, d, from).None? ==> forall j :: from <= j ==> !OccursAt(s, d, j)
    decreases |s| - from
  {
    if from + |d| <= |s| && !MatchesFrom(s, d, from, 0) {
      IndexOfMeaning(s, d, from + 1);
    }
  }

  /** A string that starts with `p` agrees with `p` on every occurrence that lies inside `p`. */
  lemma OccursInsidePrefix(s: string, p: string, d: string, i: int)
    requires StartsWith(s, p)
    requires 0 <= i && i + |d| <= |p|
    ensures OccursAt(s, d, i) <==> OccursAt(p, d, i)
  {
    StartsWithMeaning(s, p);
    OccursAtMeaning(s, d, i);
    OccursAtMeaning(p, d, i);
    forall k | i <= k < i + |d| ensures s[k] == p[k] { }
  }

  /** Starting with a string is transitive. */
  lemma StartsWithTransitive(s: string, p: string, q: string)
    requires StartsWith(s, p) && StartsWith(p, q)
    ensures StartsWith(s, q)
  {
    StartsWithMeaning(s, p);
    StartsWithMeaning(p, q);
    StartsWithMeaning(s, q);
  }
}
