/** Order-preserving list operations the board code builds on
    (`Array.prototype.filter`, `some`, `find`, `findIndex`). */
module SeqUtil {

  import opened Types

  /** `s.filter(p)`: the elements that pass, in their original order. */
  function Filter<T>(s: seq<T>, p: T -> bool): (r: seq<T>)
    ensures |r| <= |s|
  {
    if s == [] then [] else (if p(s[0]) then [s[0]] else []) + Filter(s[1..], p)
  }

  lemma {:induction false} FilterMembers<T>(s: seq<T>, p: T -> bool)
    ensures forall x :: x in Filter(s, p) <==> x in s && p(x)
  {
    if s != [] {
      FilterMembers(s[1..], p);
      assert s == [s[0]] + s[1..];
    }
  }

  lemma {:induction false} FilterMultiset<T>(s: seq<T>, p: T -> bool)
    ensures forall x :: multiset(Filter(s, p))[x] == if p(x) then multiset(s)[x] else 0
  {
    if s != [] {
      FilterMultiset(s[1..], p);
      assert s == [s[0]] + s[1..];
    }
  }

  lemma {:induction false} FilterConcat<T>(s: seq<T>, t: seq<T>, p: T -> bool)
    ensures Filter(s + t, p) == Filter(s, p) + Filter(t, p)
  {
    if s == [] {
      assert s + t == t;
    } else {
      var head := if p(s[0]) then [s[0]] else [];
      assert (s + t)[0] == s[0];
      assert (s + t)[1..] == s[1..] + t;
      calc {
        Filter(s + t, p);
        head + Filter(s[1..] + t, p);
        { FilterConcat(s[1..], t, p); }
        head + (Filter(s[1..], p) + Filter(t, p));
        (head + Filter(s[1..], p)) + Filter(t, p);
      }
    }
  }

  /** Filtering keeps everything exactly when every element passes. */
  lemma {:induction false} FilterKeepsAll<T>(s: seq<T>, p: T -> bool)
    requires forall i :: 0 <= i < |s| ==> p(s[i])
    ensures Filter(s, p) == s
  {
    if s != [] {
      FilterKeepsAll(s[1..], p);
    }
  }

  lemma {:induction false} FilterDropsAll<T>(s: seq<T>, p: T -> bool)
    requires forall i :: 0 <= i < |s| ==> !p(s[i])
    ensures Filter(s, p) == []
  {
    if s != [] {
      FilterDropsAll(s[1..], p);
    }
  }

  /** Filtering by the same predicate again changes nothing. */
  lemma {:induction false} FilterIdempotent<T>(s: seq<T>, p: T -> bool)
    ensures Filter(Filter(s, p), p) == Filter(s, p)
  {
    if s != [] {
      var rest := Filter(s[1..], p);
      FilterIdempotent(s[1..], p);
      if p(s[0]) {
        var r := [s[0]] + rest;
        assert r[0] == s[0] && r[1..] == rest;
        assert Filter(s, p) == r;
        assert Filter(r, p) == [s[0]] + Filter(rest, p);
      } else {
        assert Filter(s, p) == [] + rest == rest;
      }
    }
  }

  /** Two filters in a row are one filter by the conjunction `both`. */
  lemma {:induction false} FilterFilter<T>(s: seq<T>, p: T -> bool, q: T -> bool, both: T -> bool)
    requires forall x :: both(x) == (p(x) && q(x))
    ensures Filter(Filter(s, p), q) == Filter(s, both)
  {
    if s != [] {
      var rest := Filter(s[1..], p);
      FilterFilter(s[1..], p, q, both);
      if p(s[0]) {
        var r := [s[0]] + rest;
        assert Filter(s, p) == r;
        assert r[0] == s[0] && r[1..] == rest;
        assert Filter(r, q) == (if q(s[0]) then [s[0]] else []) + Filter(rest, q);
      } else {
        assert Filter(s, p) == [] + rest == rest;
      }
    }
  }

  /** Filters by predicates that agree on the elements are equal. */
  lemma {:induction false} FilterSamePredicate<T>(s: seq<T>, p: T -> bool, q: T -> bool)
    requires forall i :: 0 <= i < |s| ==> p(s[i]) == q(s[i])
    ensures Filter(s, p) == Filter(s, q)
  {
    if s != [] {
      FilterSamePredicate(s[1..], p, q);
    }
  }

  /** `s.some(p)` */
  predicate Any<T>(s: seq<T>, p: T -> bool) {
    exists i :: 0 <= i < |s| && p(s[i])
  }

  /** `s.find(p)`: the first element that passes, if any. */
  function Find<T>(s: seq<T>, p: T -> bool): (r: Option<T>)
    ensures r.Some? <==> Any(s, p)
    ensures r.Some? ==> r.value in s && p(r.value)
    ensures r.Some? ==> exists k :: 0 <= k < |s| && s[k] == r.value && forall j :: 0 <= j < k ==> !p(s[j])
  {
    if s == [] then None
    else if p(s[0]) then Some(s[0])
    else
      var r := Find(s[1..], p);
      assert r.Some? ==> exists k :: 1 <= k < |s| && s[k] == r.value && forall j :: 1 <= j < k ==> !p(s[j]) by {
        if r.Some? {
          var k :| 0 <= k < |s[1..]| && s[1..][k] == r.value && forall j :: 0 <= j < k ==> !p(s[1..][j]);
          assert s[k + 1] == r.value;
          assert forall j :: 1 <= j < k + 1 ==> !p(s[j]) by {
            forall j | 1 <= j < k + 1 ensures !p(s[j]) { assert s[j] == s[1..][j - 1]; }
          }
        }
      }
      assert Any(s[1..], p) ==> Any(s, p) by {
        if Any(s[1..], p) {
          var i :| 0 <= i < |s[1..]| && p(s[1..][i]);
          assert p(s[i + 1]);
        }
      }
      r
  }

  /** `s.findIndex(p)`: the first index that passes, or -1. */
  function FindIndex<T>(s: seq<T>, p: T -> bool): (k: int)
    ensures -1 <= k < |s|
    ensures k == -1 <==> !Any(s, p)
    ensures k >= 0 ==> p(s[k]) && forall j :: 0 <= j < k ==> !p(s[j])
  {
    if s == [] then -1
    else if p(s[0]) then 0
    else
      var k := FindIndex(s[1..], p);
      assert Any(s, p) ==> Any(s[1..], p) by {
        if Any(s, p) {
          var i :| 0 <= i < |s| && p(s[i]);
          assert i > 0 && p(s[1..][i - 1]);
        }
      }
      if k == -1 then -1 else k + 1
  }

  /** If no element fails `p` while its right neighbour passes, then no
      element fails `p` while any later one passes. */
  lemma {:induction false} NeverRises<T>(s: seq<T>, p: T -> bool, i: int, j: int)
    requires forall k :: 0 <= k < |s| - 1 ==> p(s[k]) || !p(s[k + 1])
    requires 0 <= i < j < |s|
    ensures p(s[i]) || !p(s[j])
    decreases j - i
  {
    if j > i + 1 {
      NeverRises(s, p, i, j - 1);
    }
  }

  /** A relation that holds between every earlier and later element still
      holds after filtering. */
  lemma HeadBeforeFiltered<T>(s: seq<T>, p: T -> bool, rel: (T, T) -> bool, x: T)
    requires forall i, j :: 0 <= i < j < |s| ==> rel(s[i], s[j])
    requires s != [] && x in Filter(s[1..], p)
    ensures rel(s[0], x)
  {
    FilterMembers(s[1..], p);
    var m :| 0 <= m < |s[1..]| && s[1..][m] == x;
    assert s[m + 1] == x;
  }

  lemma {:induction false} FilterPairwise<T>(s: seq<T>, p: T -> bool, rel: (T, T) -> bool)
    requires forall i, j :: 0 <= i < j < |s| ==> rel(s[i], s[j])
    ensures forall i, j :: 0 <= i < j < |Filter(s, p)| ==> rel(Filter(s, p)[i], Filter(s, p)[j])
  {
    if s != [] {
      var rest := Filter(s[1..], p);
      FilterPairwise(s[1..], p, rel);
      if p(s[0]) {
        var r := [s[0]] + rest;
        assert Filter(s, p) == r;
        forall i, j | 0 <= i < j < |r| ensures rel(r[i], r[j]) {
          if i == 0 {
            assert r[j] == rest[j - 1] && rest[j - 1] in rest;
            HeadBeforeFiltered(s, p, rel, r[j]);
          } else {
            assert r[i] == rest[i - 1] && r[j] == rest[j - 1];
          }
        }
      } else {
        assert Filter(s, p) == [] + rest == rest;
      }
    }
  }

  /** A property of every element of `t` holds at every position of a
      permutation of `t`. */
  lemma PermutationKeeps<T>(s: seq<T>, t: seq<T>, p: T -> bool)
    requires multiset(s) == multiset(t)
    requires forall x :: x in t ==> p(x)
    ensures forall i :: 0 <= i < |s| ==> p(s[i])
  {
    forall i | 0 <= i < |s| ensures p(s[i]) {
      assert s[i] in multiset(t);
    }
  }

  /** `s.map(f)` */
  function Map<T, U>(s: seq<T>, f: T -> U): (r: seq<U>)
    ensures |r| == |s| && forall i :: 0 <= i < |s| ==> r[i] == f(s[i])
  {
    seq(|s|, i requires 0 <= i < |s| => f(s[i]))
  }

  lemma MapConcat<T, U>(a: seq<T>, b: seq<T>, f: T -> U)
    ensures Map(a + b, f) == Map(a, f) + Map(b, f)
  {
  }

  lemma RemoveOne<T>(t: seq<T>, k: nat)
    requires k < |t|
    ensures multiset(t[..k] + t[k + 1..]) == multiset(t) - multiset{t[k]}
  {
    assert t == t[..k] + [t[k]] + t[k + 1..];
  }

  /** Mapping a list is mapping the pieces around position `k`. */
  lemma MapAround<T, U>(t: seq<T>, k: nat, f: T -> U)
    requires k < |t|
    ensures Map(t, f) == Map(t[..k], f) + [f(t[k])] + Map(t[k + 1..], f)
  {
    assert t == (t[..k] + [t[k]]) + t[k + 1..];
    MapConcat(t[..k] + [t[k]], t[k + 1..], f);
    MapConcat(t[..k], [t[k]], f);
  }

  /** Mapping a list and then dropping position `k` is dropping it first. */
  lemma MapWithout<T, U>(t: seq<T>, k: nat, f: T -> U)
    requires k < |t|
    ensures Map(t, f)[..k] + Map(t, f)[k + 1..] == Map(t[..k] + t[k + 1..], f)
  {
    MapAround(t, k, f);
    MapConcat(t[..k], t[k + 1..], f);
    assert Map(t, f)[..k] == Map(t[..k], f);
    assert Map(t, f)[k + 1..] == Map(t[k + 1..], f);
  }

  /** Mapping a list whose head sits at position `k` of `t`. */
  lemma MapSplice<T, U>(s: seq<T>, t: seq<T>, k: nat, f: T -> U)
    requires s != [] && k < |t| && s[0] == t[k]
    requires multiset(Map(s[1..], f)) == multiset(Map(t[..k] + t[k + 1..], f))
    ensures multiset(Map(s, f)) == multiset(Map(t, f))
  {
    assert Map(s, f) == [f(s[0])] + Map(s[1..], f);
    MapConcat(t[..k], t[k + 1..], f);
    MapAround(t, k, f);
  }

  /** Mapping two permutations of each other gives permutations of each other. */
  lemma {:induction false} MapPermutation<T, U>(s: seq<T>, t: seq<T>, f: T -> U)
    requires multiset(s) == multiset(t)
    ensures multiset(Map(s, f)) == multiset(Map(t, f))
  {
    if s == [] {
      assert |t| == |multiset(t)| == 0;
    } else {
      assert s[0] in multiset(t);
      var k :| 0 <= k < |t| && t[k] == s[0];
      RemoveOne(t, k);
      assert s == [s[0]] + s[1..];
      MapPermutation(s[1..], t[..k] + t[k + 1..], f);
      MapSplice(s, t, k, f);
    }
  }

  /** `[0, 1, ..., n - 1]` */
  function Iota(n: nat): (r: seq<int>)
    ensures |r| == n && forall i :: 0 <= i < n ==> r[i] == i
  {
    seq(n, i => i)
  }
}
