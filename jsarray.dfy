/**
 * The JavaScript array built-ins the app relies on: `filter`, `findIndex`,
 * `find`, de-duplication through `new Set(...)` and the default `sort` of strings.
 */
module JsArray {
  import opened Wrappers
  import opened JsString

  // ---------------------------------------------------------------------
  // filter
  // ---------------------------------------------------------------------

  /** `s` is obtained from `t` by deleting elements, keeping the order. */
  ghost predicate IsSubsequence<T>(s: seq<T>, t: seq<T>)
    decreases |t|
  {
    s == [] || (t != [] && ((s[0] == t[0] && IsSubsequence(s[1..], t[1..])) || IsSubsequence(s, t[1..])))
  }

  /** `Array.prototype.filter`: the elements of `s` that satisfy `p`, in their original order. */
  function Keep<T>(s: seq<T>, p: T -> bool): (r: seq<T>)
    ensures |r| <= |s|
    ensures forall i :: 0 <= i < |r| ==> r[i] in s && p(r[i])
    ensures forall i :: 0 <= i < |s| && p(s[i]) ==> s[i] in r
    ensures multiset(r) <= multiset(s)
  {
    if s == [] then []
    else
      assert s == [s[0]] + s[1..];
      if p(s[0]) then [s[0]] + Keep(s[1..], p) else Keep(s[1..], p)
  }

  /** The filtered sequence is a subsequence of the original. */
  lemma {:induction false} KeepIsSubsequence<T>(s: seq<T>, p: T -> bool)
    ensures IsSubsequence(Keep(s, p), s)
  {
    if s != [] {
      KeepIsSubsequence(s[1..], p);
      var r := Keep(s[1..], p);
      if p(s[0]) {
        assert Keep(s, p)[1..] == r;
      } else {
        if r != [] {
          assert IsSubsequence(Keep(s, p), s[1..]);
        }
      }
    }
  }

  /** An element occurs in the filtered sequence as often as in the original when it passes, and never otherwise. */
  lemma {:induction false} KeepCount<T>(s: seq<T>, p: T -> bool, x: T)
    ensures multiset(Keep(s, p))[x] == if p(x) then multiset(s)[x] else 0
  {
    if s != [] {
      var rest := Keep(s[1..], p);
      KeepCount(s[1..], p, x);
      assert s == [s[0]] + s[1..];
      assert multiset(s) == multiset{s[0]} + multiset(s[1..]);
      if p(s[0]) {
        assert Keep(s, p) == [s[0]] + rest;
        assert multiset(Keep(s, p)) == multiset{s[0]} + multiset(rest);
      } else {
        assert Keep(s, p) == rest;
      }
    }
  }

  /** When every element passes, filtering returns the sequence unchanged. */
  lemma {:induction false} KeepAll<T>(s: seq<T>, p: T -> bool)
    requires forall i :: 0 <= i < |s| ==> p(s[i])
    ensures Keep(s, p) == s
  {
    if s != [] {
      KeepAll(s[1..], p);
      assert [s[0]] + s[1..] == s;
    }
  }

  /** Filtering twice by the same predicate is filtering once. */
  lemma {:induction false} KeepIdempotent<T>(s: seq<T>, p: T -> bool)
    ensures Keep(Keep(s, p), p) == Keep(s, p)
  {
    var r := Keep(s, p);
    forall i | 0 <= i < |r| ensures p(r[i]) {
      assert r[i] in r;
    }
    KeepAll(r, p);
  }

  // ---------------------------------------------------------------------
  // findIndex and find
  // ---------------------------------------------------------------------

  /** `Array.prototype.findIndex`: the first index whose element satisfies `p`, or -1. */
  function FindIndex<T>(s: seq<T>, p: T -> bool): (r: int)
    ensures -1 <= r < |s|
    ensures r == -1 <==> forall i :: 0 <= i < |s| ==> !p(s[i])
    ensures r != -1 ==> p(s[r]) && forall i :: 0 <= i < r ==> !p(s[i])
  {
    if s == [] then -1
    else if p(s[0]) then 0
    else
      var k := FindIndex(s[1..], p);
      if k == -1 then -1 else k + 1
  }

  /** `Array.prototype.find`: the first element that satisfies `p`, if any. */
  function Find<T>(s: seq<T>, p: T -> bool): (r: Option<T>)
    ensures r.None? <==> forall i :: 0 <= i < |s| ==> !p(s[i])
    ensures r.Some? ==> exists k :: 0 <= k < |s| && s[k] == r.value && p(s[k]) && forall i :: 0 <= i < k ==> !p(s[i])
  {
    var k := FindIndex(s, p);
    if k == -1 then None else Some(s[k])
  }

  // ---------------------------------------------------------------------
  // Array.from(new Set(...)) and sort()
  // ---------------------------------------------------------------------

  /** No value occurs twice. */
  ghost predicate NoDups<T>(s: seq<T>) {
    forall x | x in multiset(s) :: multiset(s)[x] == 1
  }

  /** `Array.from(new Set(s))`: the distinct values of `s` in order of first occurrence. */
  function Distinct<T(==)>(s: seq<T>): (r: seq<T>)
    ensures forall i :: 0 <= i < |r| ==> r[i] in s
    ensures forall i :: 0 <= i < |s| ==> s[i] in r
    ensures NoDups(r)
  {
    if s == [] then []
    else
      var d := Distinct(s[..|s| - 1]);
      assert s == s[..|s| - 1] + [s[|s| - 1]];
      if s[|s| - 1] in d then d else d + [s[|s| - 1]]
  }

  /** Ascending in the default string order. */
  ghost predicate Sorted(s: seq<string>) {
    forall i :: 0 <= i < |s| - 1 ==> StrLe(s[i], s[i + 1])
  }

  /** Places `x` into the sorted sequence `s`. */
  function Insert(x: string, s: seq<string>): (r: seq<string>)
    requires Sorted(s)
    ensures Sorted(r)
    ensures multiset(r) == multiset(s) + multiset{x}
    ensures r[0] == x || (s != [] && r[0] == s[0])
  {
    if s == [] then [x]
    else if StrLe(x, s[0]) then [x] + s
    else
      StrLeTotal(x, s[0]);
      var t := Insert(x, s[1..]);
      assert s == [s[0]] + s[1..];
      [s[0]] + t
  }

  /** `Array.prototype.sort()` with no comparator, on strings. */
  function SortStrings(s: seq<string>): (r: seq<string>)
    ensures Sorted(r)
    ensures multiset(r) == multiset(s)
  {
    if s == [] then []
    else
      assert s == [s[0]] + s[1..];
      Insert(s[0], SortStrings(s[1..]))
  }

  /** In a sorted sequence every element is at most every later one. */
  lemma {:induction false} SortedPairwise(s: seq<string>, i: int, j: int)
    requires Sorted(s)
    requires 0 <= i <= j < |s|
    ensures StrLe(s[i], s[j])
    decreases j - i
  {
    if i == j {
      StrLeTotal(s[i], s[i]);
    } else {
      SortedPairwise(s, i + 1, j);
      StrLeTransitive(s[i], s[i + 1], s[j]);
    }
  }

  /** A sorted sequence without repeats is strictly ascending. */
  lemma SortedNoDupsStrict(s: seq<string>, i: int, j: int)
    requires Sorted(s) && NoDups(s)
    requires 0 <= i < j < |s|
    ensures StrLe(s[i], s[j]) && s[i] != s[j]
  {
    SortedPairwise(s, i, j);
    if s[i] == s[j] {
      RepeatCounted(s, i, j);
    }
  }

  /** A value found at two positions occurs at least twice. */
  lemma RepeatCounted<T>(s: seq<T>, i: int, j: int)
    requires 0 <= i < j < |s| && s[i] == s[j]
    ensures multiset(s)[s[i]] >= 2
  {
    var x := s[i];
    assert s == s[..j] + s[j..];
    assert s[..j][i] == x && s[j..][0] == x;
    assert multiset(s)[x] == multiset(s[..j])[x] + multiset(s[j..])[x];
  }
}
