/** The two list idioms the backend uses everywhere: `Array.prototype.filter`
    and "find the first element that matches" (`find` / `findIndex` / `id`). */
module Lists {
  import opened Common

  /** The elements of `s` that satisfy `keep`, in their original order. */
  function Filter<T>(s: seq<T>, keep: T -> bool): (r: seq<T>)
    ensures |r| <= |s|
    ensures forall i :: 0 <= i < |r| ==> r[i] in s && keep(r[i])
    ensures forall i :: 0 <= i < |s| && keep(s[i]) ==> s[i] in r
  {
    if s == [] then [] else (if keep(s[0]) then [s[0]] else []) + Filter(s[1..], keep)
  }

  /** Filtering a concatenation filters each part: the kept elements keep their order. */
  lemma {:induction false} FilterAppend<T>(a: seq<T>, b: seq<T>, keep: T -> bool)
    ensures Filter(a + b, keep) == Filter(a, keep) + Filter(b, keep)
  {
    if a == [] {
      assert a + b == b;
    } else {
      assert (a + b)[1..] == a[1..] + b;
      FilterAppend(a[1..], b, keep);
    }
  }

  /** When every element is kept, filtering changes nothing. */
  lemma {:induction false} FilterKeepsAll<T>(s: seq<T>, keep: T -> bool)
    requires forall i :: 0 <= i < |s| ==> keep(s[i])
    ensures Filter(s, keep) == s
  {
    if s != [] {
      FilterKeepsAll(s[1..], keep);
    }
  }

  /** Filtering twice with the same test is filtering once. */
  lemma FilterIdempotent<T>(s: seq<T>, keep: T -> bool)
    ensures Filter(Filter(s, keep), keep) == Filter(s, keep)
  {
    var r := Filter(s, keep);
    FilterKeepsAll(r, keep);
  }

  /** `r` lists the elements of `s` found at the strictly increasing positions `idx`: `r` is a
      subsequence of `s`, in the order of `s`. */
  ghost predicate Picks<T>(s: seq<T>, idx: seq<nat>, r: seq<T>) {
    && |idx| == |r|
    && (forall k :: 0 <= k < |idx| ==> idx[k] < |s| && r[k] == s[idx[k]])
    && (forall k, l :: 0 <= k < l < |idx| ==> idx[k] < idx[l])
  }

  /** The positions of `s` whose elements satisfy `p`, in increasing order. */
  function Kept<T>(s: seq<T>, p: T -> bool): (idx: seq<nat>)
    ensures forall k :: 0 <= k < |idx| ==> idx[k] < |s| && p(s[idx[k]])
    ensures forall k, l :: 0 <= k < l < |idx| ==> idx[k] < idx[l]
    ensures forall i :: 0 <= i < |s| && p(s[i]) ==> i in idx
  {
    if s == [] then []
    else
      var n := |s| - 1;
      assert forall i :: 0 <= i < n ==> s[..n][i] == s[i];
      Kept(s[..n], p) + (if p(s[n]) then [n] else [])
  }

  /** `Filter` keeps exactly the elements at the positions `Kept` lists, in their order. */
  lemma {:induction false} FilterOrder<T>(s: seq<T>, keep: T -> bool)
    ensures Picks(s, Kept(s, keep), Filter(s, keep))
    decreases |s|
  {
    if s != [] {
      var n := |s| - 1;
      var a := s[..n];
      assert s == a + [s[n]];
      FilterAppend(a, [s[n]], keep);
      FilterOrder(a, keep);
      assert [s[n]][1..] == [];
      var r := Filter(a, keep);
      var idx := Kept(a, keep);
      assert Filter(s, keep) == r + (if keep(s[n]) then [s[n]] else []);
      assert Kept(s, keep) == idx + (if keep(s[n]) then [n] else []);
      forall k | 0 <= k < |idx|
        ensures idx[k] < n && r[k] == s[idx[k]]
      {
        assert a[idx[k]] == s[idx[k]];
      }
    }
  }

  /** Index of the first element that satisfies `p`, as `find` and `findIndex` locate it. */
  function FirstIndex<T>(s: seq<T>, p: T -> bool): (r: Option<nat>)
    ensures r.Some? ==> r.value < |s| && p(s[r.value]) && forall j :: 0 <= j < r.value ==> !p(s[j])
    ensures r.None? ==> forall j :: 0 <= j < |s| ==> !p(s[j])
  {
    if s == [] then None
    else if p(s[0]) then Some(0)
    else match FirstIndex(s[1..], p)
      case None => None
      case Some(k) => Some(k + 1)
  }
}
