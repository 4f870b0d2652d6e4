/** `Array.prototype.sort` with a comparator, which the language requires to be
    stable. It is modelled as insertion sort: for a consistent comparator every
    stable sort yields the same list. */
module Sorting {

  import opened SeqUtil

  /** Put `x` before the first element it does not compare after. */
  function Insert<T>(x: T, s: seq<T>, cmp: (T, T) -> int): (r: seq<T>)
    ensures multiset(r) == multiset(s) + multiset{x}
    ensures |r| == |s| + 1
  {
    if s == [] || cmp(x, s[0]) <= 0 then [x] + s
    else
      var r := [s[0]] + Insert(x, s[1..], cmp);
      assert s == [s[0]] + s[1..];
      r
  }

  /** An element that does not compare after the head goes first. */
  lemma InsertAtHead<T>(x: T, s: seq<T>, cmp: (T, T) -> int)
    requires s == [] || cmp(x, s[0]) <= 0
    ensures Insert(x, s, cmp) == [x] + s
  {
  }

  /** An element that compares after the head goes into the tail. */
  lemma InsertAfterHead<T>(x: T, s: seq<T>, cmp: (T, T) -> int)
    requires s != [] && cmp(x, s[0]) > 0
    ensures Insert(x, s, cmp) == [s[0]] + Insert(x, s[1..], cmp)
  {
  }

  /** The list sorted by `cmp`; elements that compare equal keep their input order. */
  function Sort<T>(s: seq<T>, cmp: (T, T) -> int): (r: seq<T>)
    ensures multiset(r) == multiset(s)
    ensures |r| == |s|
  {
    if s == [] then []
    else
      var r := Insert(s[0], Sort(s[1..], cmp), cmp);
      assert s == [s[0]] + s[1..];
      r
  }

  /** No neighbouring pair is out of order. */
  ghost predicate Sorted<T>(s: seq<T>, cmp: (T, T) -> int) {
    forall i :: 0 <= i < |s| - 1 ==> cmp(s[i], s[i + 1]) <= 0
  }

  /** `cmp(a, b) > 0` means `cmp(b, a) < 0` on the elements of `s`. */
  ghost predicate AntisymmetricOn<T>(s: seq<T>, cmp: (T, T) -> int) {
    forall i, j :: 0 <= i < |s| && 0 <= j < |s| && cmp(s[i], s[j]) > 0 ==> cmp(s[j], s[i]) < 0
  }

  lemma {:induction false} InsertSorted<T>(x: T, s: seq<T>, cmp: (T, T) -> int)
    requires Sorted(s, cmp)
    requires forall y :: y in s && cmp(x, y) > 0 ==> cmp(y, x) < 0
    ensures Sorted(Insert(x, s, cmp), cmp)
    ensures |s| > 0 ==> Insert(x, s, cmp)[0] == x || Insert(x, s, cmp)[0] == s[0]
  {
    if s != [] && cmp(x, s[0]) > 0 {
      assert s[0] in s;
      InsertSorted(x, s[1..], cmp);
      var t := Insert(x, s[1..], cmp);
      assert Insert(x, s, cmp) == [s[0]] + t;
      assert |s| > 1 ==> s[1..][0] == s[1];
    }
  }

  /** Sorting with a comparator that is antisymmetric on the input yields a list
      in which every neighbouring pair is in order. */
  lemma {:induction false} SortSorted<T>(s: seq<T>, cmp: (T, T) -> int)
    requires AntisymmetricOn(s, cmp)
    ensures Sorted(Sort(s, cmp), cmp)
  {
    if s != [] {
      assert AntisymmetricOn(s[1..], cmp) by {
        forall i, j | 0 <= i < |s[1..]| && 0 <= j < |s[1..]| && cmp(s[1..][i], s[1..][j]) > 0
          ensures cmp(s[1..][j], s[1..][i]) < 0
        {
          assert s[1..][i] == s[i + 1] && s[1..][j] == s[j + 1];
        }
      }
      SortSorted(s[1..], cmp);
      var t := Sort(s[1..], cmp);
      forall y | y in t && cmp(s[0], y) > 0 ensures cmp(y, s[0]) < 0 {
        assert y in multiset(t);
        assert y in s[1..];
        var j :| 0 <= j < |s[1..]| && s[1..][j] == y;
        assert s[j + 1] == y;
      }
      InsertSorted(s[0], t, cmp);
    }
  }

  lemma {:induction false} FilterInsertOther<T>(x: T, s: seq<T>, cmp: (T, T) -> int, p: T -> bool)
    requires !p(x)
    ensures Filter(Insert(x, s, cmp), p) == Filter(s, p)
  {
    if s == [] || cmp(x, s[0]) <= 0 {
      FilterConcat([x], s, p);
    } else {
      FilterConcat([s[0]], Insert(x, s[1..], cmp), p);
      FilterInsertOther(x, s[1..], cmp, p);
      FilterConcat([s[0]], s[1..], p);
      assert s == [s[0]] + s[1..];
    }
  }

  lemma {:induction false} FilterInsertSame<T>(x: T, s: seq<T>, cmp: (T, T) -> int, p: T -> bool)
    requires p(x)
    requires forall y :: y in s && p(y) ==> cmp(x, y) <= 0
    ensures Filter(Insert(x, s, cmp), p) == [x] + Filter(s, p)
  {
    if s == [] || cmp(x, s[0]) <= 0 {
      FilterConcat([x], s, p);
    } else {
      assert s[0] in s;
      FilterConcat([s[0]], Insert(x, s[1..], cmp), p);
      FilterInsertSame(x, s[1..], cmp, p);
      FilterConcat([s[0]], s[1..], p);
      assert s == [s[0]] + s[1..];
    }
  }

  /** Stability: a class of elements that all compare equal to each other comes
      out in the order it went in. */
  lemma {:induction false} SortStable<T>(s: seq<T>, cmp: (T, T) -> int, p: T -> bool)
    requires forall a, b :: p(a) && p(b) ==> cmp(a, b) <= 0
    ensures Filter(Sort(s, cmp), p) == Filter(s, p)
  {
    if s != [] {
      var t := Sort(s[1..], cmp);
      assert Sort(s, cmp) == Insert(s[0], t, cmp);
      SortStable(s[1..], cmp, p);
      if p(s[0]) {
        FilterInsertSame(s[0], t, cmp, p);
        assert Filter(s, p) == [s[0]] + Filter(s[1..], p);
      } else {
        FilterInsertOther(s[0], t, cmp, p);
        assert Filter(s, p) == Filter(s[1..], p);
      }
    }
  }

  /** A list already in order comes out of the sort unchanged. */
  lemma {:induction false} SortKeepsSorted<T>(s: seq<T>, cmp: (T, T) -> int)
    requires Sorted(s, cmp)
    ensures Sort(s, cmp) == s
  {
    if s != [] {
      assert Sorted(s[1..], cmp) by {
        forall i | 0 <= i < |s[1..]| - 1 ensures cmp(s[1..][i], s[1..][i + 1]) <= 0 {
          assert s[1..][i] == s[i + 1] && s[1..][i + 1] == s[i + 2];
        }
      }
      SortKeepsSorted(s[1..], cmp);
      assert s == [s[0]] + s[1..];
    }
  }

  /** Small facts about short list displays. */
  lemma Displays<T>(a: T, b: T, c: T)
    ensures [a] + [b] == [a, b] && [a] + ([b] + [c]) == [a, b, c]
    ensures [a] + [] == [a] && [a][1..] == [] && [a, b][1..] == [b]
  {
  }

  /** Sorting three elements inserts the first into the sorted other two. */
  lemma SortThree<T>(x: T, y: T, z: T, cmp: (T, T) -> int)
    ensures Sort([x, y, z], cmp) == Insert(x, Insert(y, [z], cmp), cmp)
  {
    assert [x, y, z][1..] == [y, z] && [y, z][1..] == [z] && [z][1..] == [];
    assert Sort([z], cmp) == [z];
  }

  /** Sorting three elements whose last one compares first. */
  lemma SortLastFirst<T>(x: T, y: T, z: T, cmp: (T, T) -> int)
    requires cmp(y, z) > 0 && cmp(x, z) > 0 && cmp(x, y) <= 0
    ensures Sort([x, y, z], cmp) == [z, x, y]
  {
    SortThree(x, y, z, cmp);
    Displays(y, z, x);
    Displays(z, y, x);
    Displays(z, x, y);
    InsertAfterHead(y, [z], cmp);
    InsertAtHead(y, [], cmp);
    InsertAfterHead(x, [z, y], cmp);
    InsertAtHead(x, [y], cmp);
  }

  /** Sorting three elements whose middle one compares first. */
  lemma SortMiddleFirst<T>(x: T, y: T, z: T, cmp: (T, T) -> int)
    requires cmp(y, z) <= 0 && cmp(x, y) > 0 && cmp(x, z) <= 0
    ensures Sort([x, y, z], cmp) == [y, x, z]
  {
    SortThree(x, y, z, cmp);
    Displays(y, z, x);
    Displays(y, x, z);
    InsertAtHead(y, [z], cmp);
    InsertAfterHead(x, [y, z], cmp);
    InsertAtHead(x, [z], cmp);
  }
}
