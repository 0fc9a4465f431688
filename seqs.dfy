/** Sequence operations the stores are built from: Python's `list.index`-style
    first match, `list.pop(i)` / `del l[i]`, Python's signed indexing, and
    the order-keeping filter of a list comprehension. */
module Seqs {
  import opened Common

  /** No value occurs twice. */
  ghost predicate Distinct<T>(s: seq<T>) {
    forall i, j :: 0 <= i < j < |s| ==> s[i] != s[j]
  }

  /** Position of the first occurrence of `x`, or None when `x` is absent:
      what a `for i, e in enumerate(s): if e == x: ...` scan reaches. */
  function IndexOf<T(==)>(s: seq<T>, x: T): (r: Option<nat>)
    ensures r.Some? ==> r.value < |s| && s[r.value] == x
    ensures r.Some? ==> forall j :: 0 <= j < r.value ==> s[j] != x
    ensures r.None? <==> x !in s
  {
    if s == [] then None
    else if s[0] == x then Some(0)
    else
      match IndexOf(s[1..], x)
      case None => None
      case Some(k) => Some(k + 1)
  }

  /** A position that holds `x` with no earlier `x` is the one IndexOf gives. */
  lemma IndexOfIsFirst<T>(s: seq<T>, x: T, i: nat)
    requires i < |s| && s[i] == x
    requires forall j :: 0 <= j < i ==> s[j] != x
    ensures IndexOf(s, x) == Some(i)
  {
  }

  /** IndexOf on a sequence extended at the end finds an earlier match
      first, and the appended element otherwise. */
  lemma {:induction false} IndexOfAppend<T>(s: seq<T>, y: T, x: T)
    ensures IndexOf(s + [y], x) ==
              if x in s then IndexOf(s, x)
              else if y == x then Some(|s|)
              else None
  {
    if x in s {
      var i := IndexOf(s, x).value;
      assert (s + [y])[i] == x;
      IndexOfIsFirst(s + [y], x, i);
    } else if y == x {
      assert (s + [y])[|s|] == x;
      IndexOfIsFirst(s + [y], x, |s|);
    } else {
      assert x !in s + [y];
    }
  }

  /** `s.pop(i)` / `del s[i]` for a valid non-negative index `i`. */
  function RemoveAt<T>(s: seq<T>, i: nat): (r: seq<T>)
    requires i < |s|
    ensures |r| == |s| - 1
    ensures forall j :: 0 <= j < i ==> r[j] == s[j]
    ensures forall j :: i <= j < |r| ==> r[j] == s[j + 1]
    ensures multiset(r) + multiset{s[i]} == multiset(s)
  {
    assert s == s[..i] + [s[i]] + s[i + 1..];
    s[..i] + s[i + 1..]
  }

  /** Removing an element keeps the remaining ones distinct. */
  lemma RemoveAtKeepsDistinct<T>(s: seq<T>, i: nat)
    requires i < |s| && Distinct(s)
    ensures Distinct(RemoveAt(s, i))
  {
  }

  /** Python's `s[k]` on a list of length `n`: a `k` in `[-n, n)` names
      position `k` (counted from the end when negative), any other `k`
      raises IndexError. */
  function PyIndex(k: int, n: nat): (r: Option<nat>)
    ensures r.Some? <==> -(n as int) <= k < n
    ensures r.Some? ==> r.value < n && (r.value == k || r.value == k + n)
  {
    if 0 <= k < n then Some(k)
    else if -(n as int) <= k < 0 then Some(k + n)
    else None
  }

  /** `sub` is `s` with some elements dropped and the rest kept in order. */
  ghost predicate IsSubsequence<T>(sub: seq<T>, s: seq<T>)
    decreases |s|
  {
    if sub == [] then true
    else if s == [] then false
    else if sub[0] == s[0] then IsSubsequence(sub[1..], s[1..])
    else IsSubsequence(sub, s[1..])
  }
}
