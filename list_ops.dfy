/**
 * Generic sequence operations behind the storefront's `Array.prototype`
 * calls: `filter`, and the stable comparison `sort` (as an insertion sort).
 */
module ListOps {
  import opened Text

  /** `s.filter(p)`: the elements of `s` that satisfy `p`, in their original order. */
  function Filter<T(!new)>(s: seq<T>, p: T -> bool): (r: seq<T>)
    ensures |r| <= |s|
    ensures forall i :: 0 <= i < |r| ==> p(r[i])
    ensures forall x :: x in r <==> x in s && p(x)
  {
    if s == [] then []
    else
      assert s == [s[0]] + s[1..];
      (if p(s[0]) then [s[0]] else []) + Filter(s[1..], p)
  }

  lemma MultisetOfHead<T>(s: seq<T>)
    requires s != []
    ensures multiset(s) == multiset{s[0]} + multiset(s[1..])
  {
    assert s == [s[0]] + s[1..];
  }

  /** The elements the first step of a filter keeps, counted. */
  lemma FilterHeadMultiset<T(!new)>(s: seq<T>, p: T -> bool)
    requires s != []
    ensures multiset(Filter(s, p)) == (if p(s[0]) then multiset{s[0]} else multiset{}) + multiset(Filter(s[1..], p))
  {
    if p(s[0]) {
      assert Filter(s, p) == [s[0]] + Filter(s[1..], p);
    } else {
      assert Filter(s, p) == Filter(s[1..], p);
    }
  }

  /** The filter keeps every passing element as often as it occurs, and nothing else. */
  lemma {:induction false} FilterCount<T(!new)>(s: seq<T>, p: T -> bool, x: T)
    ensures multiset(Filter(s, p))[x] == if p(x) then multiset(s)[x] else 0
  {
    if s != [] {
      FilterCount(s[1..], p, x);
      FilterHeadMultiset(s, p);
      MultisetOfHead(s);
    }
  }

  /** `s.findIndex(p)`: the first position whose element satisfies `p`, or -1. */
  function FindIndex<T>(s: seq<T>, p: T -> bool): (k: int)
    ensures -1 <= k < |s|
  {
    if s == [] then -1
    else if p(s[0]) then 0
    else
      var k := FindIndex(s[1..], p);
      if k == -1 then -1 else k + 1
  }

  /** `FindIndex` returns the first passing position, and -1 exactly when nothing passes. */
  lemma {:induction false} FindIndexIsFirst<T>(s: seq<T>, p: T -> bool)
    ensures var k := FindIndex(s, p);
      k >= 0 ==> p(s[k]) && forall j :: 0 <= j < k ==> !p(s[j])
    ensures FindIndex(s, p) == -1 <==> forall j :: 0 <= j < |s| ==> !p(s[j])
  {
    if s != [] && !p(s[0]) {
      FindIndexIsFirst(s[1..], p);
      var k := FindIndex(s[1..], p);
      if k == -1 {
        forall j | 1 <= j < |s| ensures !p(s[j]) {
          assert s[j] == s[1..][j - 1];
        }
      } else {
        forall j | 1 <= j < k + 1 ensures !p(s[j]) {
          assert s[j] == s[1..][j - 1];
        }
        assert s[k + 1] == s[1..][k];
      }
    }
  }

  /** `a` is `b` with some elements left out, the rest in their original order. */
  predicate IsSubsequence<T(==)>(a: seq<T>, b: seq<T>)
    decreases |b|
  {
    a == [] || (b != [] && ((a[0] == b[0] && IsSubsequence(a[1..], b[1..])) || IsSubsequence(a, b[1..])))
  }

  /** Every element of a subsequence occurs in the sequence. */
  lemma {:induction false} SubsequenceMembers<T>(a: seq<T>, b: seq<T>)
    requires IsSubsequence(a, b)
    ensures forall x :: x in a ==> x in b
    decreases |b|
  {
    if a != [] {
      if a[0] == b[0] && IsSubsequence(a[1..], b[1..]) {
        SubsequenceMembers(a[1..], b[1..]);
        forall x | x in a ensures x in b {
          if x != a[0] {
            assert x in a[1..];
          }
        }
      } else {
        SubsequenceMembers(a, b[1..]);
      }
    }
  }

  lemma {:induction false} FilterIsSubsequence<T(!new)>(s: seq<T>, p: T -> bool)
    ensures IsSubsequence(Filter(s, p), s)
  {
    if s != [] {
      FilterIsSubsequence(s[1..], p);
      var r := Filter(s, p);
      if p(s[0]) {
        assert r == [s[0]] + Filter(s[1..], p);
        assert r[0] == s[0] && r[1..] == Filter(s[1..], p);
      } else {
        assert r == Filter(s[1..], p);
      }
    }
  }

  lemma {:induction false} SubsequenceReflexive<T>(s: seq<T>)
    ensures IsSubsequence(s, s)
  {
    if s != [] {
      SubsequenceReflexive(s[1..]);
    }
  }

  /** Leaving out elements twice is leaving out elements once. */
  lemma {:induction false} SubsequenceTransitive<T>(a: seq<T>, b: seq<T>, c: seq<T>)
    requires IsSubsequence(a, b) && IsSubsequence(b, c)
    ensures IsSubsequence(a, c)
    decreases |c|
  {
    if a != [] {
      if b[0] == c[0] && IsSubsequence(b[1..], c[1..]) {
        if a[0] == b[0] && IsSubsequence(a[1..], b[1..]) {
          SubsequenceTransitive(a[1..], b[1..], c[1..]);
        } else {
          SubsequenceTransitive(a, b[1..], c[1..]);
        }
      } else {
        SubsequenceTransitive(a, b, c[1..]);
      }
    }
  }

  /** A filter that every element passes changes nothing. */
  lemma {:induction false} FilterKeepsAll<T(!new)>(s: seq<T>, p: T -> bool)
    requires forall i :: 0 <= i < |s| ==> p(s[i])
    ensures Filter(s, p) == s
  {
    if s != [] {
      FilterKeepsAll(s[1..], p);
      assert s == [s[0]] + s[1..];
    }
  }

  /** Every ordered pair (earlier, later) of `s` is related by `rel`. */
  ghost predicate Pairwise<T>(s: seq<T>, rel: (T, T) -> bool)
  {
    forall i, j :: 0 <= i < j < |s| ==> rel(s[i], s[j])
  }

  /** In a pairwise-related sequence the first element is related to every later one. */
  lemma HeadRelated<T>(s: seq<T>, rel: (T, T) -> bool, x: T)
    requires Pairwise(s, rel) && s != [] && x in s[1..]
    ensures rel(s[0], x)
  {
    var k :| 0 <= k < |s[1..]| && s[1..][k] == x;
    assert s[k + 1] == x;
  }

  /** Filtering keeps a pairwise property: the survivors keep their relative order. */
  lemma {:induction false} FilterPairwise<T(!new)>(s: seq<T>, p: T -> bool, rel: (T, T) -> bool)
    requires Pairwise(s, rel)
    ensures Pairwise(Filter(s, p), rel)
  {
    if s != [] {
      var tail := Filter(s[1..], p);
      assert Pairwise(s[1..], rel) by {
        forall i, j | 0 <= i < j < |s[1..]| ensures rel(s[1..][i], s[1..][j]) {
          assert s[1..][i] == s[i + 1] && s[1..][j] == s[j + 1];
        }
      }
      FilterPairwise(s[1..], p, rel);
      if p(s[0]) {
        var r := [s[0]] + tail;
        forall j | 0 <= j < |tail| ensures rel(s[0], tail[j]) {
          assert tail[j] in tail;
          HeadRelated(s, rel, tail[j]);
        }
        forall i, j | 0 <= i < j < |r| ensures rel(r[i], r[j]) {
          assert r[j] == tail[j - 1];
          if i > 0 {
            assert r[i] == tail[i - 1];
          }
        }
        assert Filter(s, p) == r;
      }
    }
  }

  /** `le` orders every pair and is transitive: what a sort comparator must be. */
  ghost predicate TotalPreorder<T(!new)>(le: (T, T) -> bool)
  {
    && (forall a, b :: le(a, b) || le(b, a))
    && (forall a, b, c :: le(a, b) && le(b, c) ==> le(a, c))
  }

  ghost predicate Reflexive<T(!new)>(le: (T, T) -> bool)
  {
    forall a :: le(a, a)
  }

  ghost predicate Antisymmetric<T(!new)>(le: (T, T) -> bool)
  {
    forall a, b :: le(a, b) && le(b, a) ==> a == b
  }

  predicate SortedBy<T>(s: seq<T>, le: (T, T) -> bool)
  {
    forall i, j :: 0 <= i < j < |s| ==> le(s[i], s[j])
  }

  /** Inserts `x` into `s` after every element that must not come after it. */
  function Insert<T>(x: T, s: seq<T>, le: (T, T) -> bool): (r: seq<T>)
    ensures multiset(r) == multiset(s) + multiset{x}
  {
    if s == [] then [x]
    else if le(x, s[0]) && !le(s[0], x) then [x] + s
    else
      assert s == [s[0]] + s[1..];
      [s[0]] + Insert(x, s[1..], le)
  }

  /** An insertion sort by comparator `le` (`le(a, b)` means "`a` may precede `b`"). */
  function Sort<T>(s: seq<T>, le: (T, T) -> bool): (r: seq<T>)
    ensures multiset(r) == multiset(s)
  {
    if s == [] then []
    else
      assert s == s[..|s| - 1] + [s[|s| - 1]];
      Insert(s[|s| - 1], Sort(s[..|s| - 1], le), le)
  }

  lemma {:induction false} InsertSorted<T(!new)>(x: T, s: seq<T>, le: (T, T) -> bool)
    requires TotalPreorder(le) && SortedBy(s, le)
    ensures SortedBy(Insert(x, s, le), le)
  {
    if s != [] && !(le(x, s[0]) && !le(s[0], x)) {
      var tail := Insert(x, s[1..], le);
      InsertSorted(x, s[1..], le);
      var r := [s[0]] + tail;
      assert le(s[0], x);
      forall j | 0 <= j < |tail| ensures le(s[0], tail[j]) {
        assert tail[j] in multiset(s[1..]) + multiset{x};
        if tail[j] != x {
          assert tail[j] in s[1..];
        }
      }
    }
  }

  /** The sort yields a sorted permutation of its input. */
  lemma {:induction false} SortSorted<T(!new)>(s: seq<T>, le: (T, T) -> bool)
    requires TotalPreorder(le)
    ensures SortedBy(Sort(s, le), le)
  {
    if s != [] {
      SortSorted(s[..|s| - 1], le);
      InsertSorted(s[|s| - 1], Sort(s[..|s| - 1], le), le);
    }
  }

  /** The test "`e` and `y` compare equal under `le`": neither must come after the other. */
  function SameKey<T>(le: (T, T) -> bool, y: T): T -> bool
  {
    (e: T) => le(e, y) && le(y, e)
  }

  /** Filtering a sequence with one element in front. */
  lemma FilterCons<T(!new)>(a: T, t: seq<T>, p: T -> bool)
    ensures Filter([a] + t, p) == (if p(a) then [a] else []) + Filter(t, p)
  {
    assert ([a] + t)[1..] == t;
  }

  /** Regrouping a concatenation, stated apart from what the pieces are. */
  lemma Regroup<T>(whole: seq<T>, rest: seq<T>, other: seq<T>, head: seq<T>, mid: seq<T>, tail: seq<T>)
    requires whole == head + rest && rest == mid + tail && other == head + mid
    ensures whole == other + tail
  {
  }

  /** Filtering a sequence with one element appended. */
  lemma {:induction false} FilterSnoc<T(!new)>(s: seq<T>, x: T, p: T -> bool)
    ensures Filter(s + [x], p) == Filter(s, p) + (if p(x) then [x] else [])
  {
    if s == [] {
      assert [x][1..] == [];
    } else {
      assert s + [x] == [s[0]] + (s[1..] + [x]);
      FilterCons(s[0], s[1..] + [x], p);
      FilterSnoc(s[1..], x, p);
      Regroup(Filter(s + [x], p), Filter(s[1..] + [x], p), Filter(s, p),
              if p(s[0]) then [s[0]] else [], Filter(s[1..], p), if p(x) then [x] else []);
    }
  }

  /** Filtering a non-empty sequence: its front filtered, then its last element if kept. */
  lemma FilterLast<T(!new)>(s: seq<T>, p: T -> bool)
    requires s != []
    ensures Filter(s, p) == Filter(s[..|s| - 1], p) + (if p(s[|s| - 1]) then [s[|s| - 1]] else [])
  {
    var init, last := s[..|s| - 1], s[|s| - 1];
    assert init + [last] == s;
    FilterSnoc(init, last, p);
  }

  /** Inserting an element the filter rejects leaves the filtered sequence as it was. */
  lemma {:induction false} FilterInsertOther<T(!new)>(x: T, s: seq<T>, le: (T, T) -> bool, p: T -> bool)
    requires !p(x)
    ensures Filter(Insert(x, s, le), p) == Filter(s, p)
  {
    if s == [] {
      assert [x][1..] == [];
    } else if le(x, s[0]) && !le(s[0], x) {
      FilterCons(x, s, p);
    } else {
      var t := Insert(x, s[1..], le);
      FilterCons(s[0], t, p);
      FilterInsertOther(x, s[1..], le, p);
    }
  }

  /** Filtering out every element leaves nothing. */
  lemma {:induction false} FilterDropsAll<T(!new)>(s: seq<T>, p: T -> bool)
    requires forall i :: 0 <= i < |s| ==> !p(s[i])
    ensures Filter(s, p) == []
  {
    if s != [] {
      assert !p(s[0]);
      FilterDropsAll(s[1..], p);
    }
  }

  /** In a sorted sequence whose head must come after `x`, nothing shares `x`'s key. */
  lemma SortedAfterHasOtherKey<T(!new)>(x: T, s: seq<T>, le: (T, T) -> bool, y: T)
    requires TotalPreorder(le) && SortedBy(s, le) && s != []
    requires le(x, s[0]) && !le(s[0], x) && SameKey(le, y)(x)
    ensures Filter(s, SameKey(le, y)) == []
  {
    forall i | 0 <= i < |s| ensures !SameKey(le, y)(s[i]) {
      if i > 0 {
        assert le(s[0], s[i]);
      }
    }
    FilterDropsAll(s, SameKey(le, y));
  }

  /** Inserting into a sorted sequence puts `x` after every element of its own key. */
  lemma {:induction false} FilterInsertSame<T(!new)>(x: T, s: seq<T>, le: (T, T) -> bool, y: T)
    requires TotalPreorder(le) && SortedBy(s, le) && SameKey(le, y)(x)
    ensures Filter(Insert(x, s, le), SameKey(le, y)) == Filter(s, SameKey(le, y)) + [x]
  {
    var p := SameKey(le, y);
    if s == [] {
      assert [x][1..] == [];
    } else if le(x, s[0]) && !le(s[0], x) {
      FilterCons(x, s, p);
      SortedAfterHasOtherKey(x, s, le, y);
    } else {
      var t := Insert(x, s[1..], le);
      FilterCons(s[0], t, p);
      SortedTail(s, le);
      FilterInsertSame(x, s[1..], le, y);
      Regroup(Filter(Insert(x, s, le), p), Filter(t, p), Filter(s, p),
              if p(s[0]) then [s[0]] else [], Filter(s[1..], p), [x]);
    }
  }

  /** The sort is stable: the elements of any one key keep their input order. */
  lemma {:induction false} SortStable<T(!new)>(s: seq<T>, le: (T, T) -> bool, y: T)
    requires TotalPreorder(le)
    ensures Filter(Sort(s, le), SameKey(le, y)) == Filter(s, SameKey(le, y))
  {
    if s != [] {
      var init, last := s[..|s| - 1], s[|s| - 1];
      var sorted := Sort(init, le);
      SortStable(init, le, y);
      SortSorted(init, le);
      if SameKey(le, y)(last) {
        FilterInsertSame(last, sorted, le, y);
      } else {
        FilterInsertOther(last, sorted, le, SameKey(le, y));
      }
      FilterLast(s, SameKey(le, y));
    }
  }

  /** The head of a sorted sequence precedes each of its elements. */
  lemma SortedHeadFirst<T(!new)>(s: seq<T>, le: (T, T) -> bool, x: T)
    requires Reflexive(le) && SortedBy(s, le) && x in s
    ensures le(s[0], x)
  {
    var i :| 0 <= i < |s| && s[i] == x;
    if i > 0 {
      assert le(s[0], s[i]);
    }
  }

  /** Dropping the head of a sorted sequence leaves it sorted. */
  lemma SortedTail<T>(s: seq<T>, le: (T, T) -> bool)
    requires s != [] && SortedBy(s, le)
    ensures SortedBy(s[1..], le)
  {
    forall i, j | 0 <= i < j < |s[1..]| ensures le(s[1..][i], s[1..][j]) {
      assert le(s[i + 1], s[j + 1]);
    }
  }

  /** Two sorted sequences with the same non-empty multiset begin with the same element. */
  lemma SortedSameHead<T(!new)>(a: seq<T>, b: seq<T>, le: (T, T) -> bool)
    requires Reflexive(le) && Antisymmetric(le)
    requires SortedBy(a, le) && SortedBy(b, le) && multiset(a) == multiset(b) && a != []
    ensures b != [] && a[0] == b[0]
  {
    assert a[0] in multiset(b);
    assert b[0] in multiset(a);
    SortedHeadFirst(b, le, a[0]);
    SortedHeadFirst(a, le, b[0]);
  }

  /** Removing the same head from two sequences leaves tails with equal multisets. */
  lemma SameTailMultiset<T>(a: seq<T>, b: seq<T>)
    requires a != [] && b != [] && a[0] == b[0] && multiset(a) == multiset(b)
    ensures multiset(a[1..]) == multiset(b[1..])
  {
    assert a == [a[0]] + a[1..];
    assert b == [b[0]] + b[1..];
    calc {
      multiset(a[1..]);
      multiset(a) - multiset{a[0]};
      multiset(b) - multiset{b[0]};
      multiset(b[1..]);
    }
  }

  /**
   * Under a total order there is only one sorted arrangement of a multiset:
   * two sorted sequences with the same elements are equal.
   */
  lemma {:induction false} SortedUnique<T(!new)>(a: seq<T>, b: seq<T>, le: (T, T) -> bool)
    requires Reflexive(le) && Antisymmetric(le)
    requires SortedBy(a, le) && SortedBy(b, le) && multiset(a) == multiset(b)
    ensures a == b
  {
    if a != [] {
      SortedSameHead(a, b, le);
      SameTailMultiset(a, b);
      SortedTail(a, le);
      SortedTail(b, le);
      SortedUnique(a[1..], b[1..], le);
      assert a == [a[0]] + a[1..] && b == [b[0]] + b[1..];
    } else {
      assert |b| == |multiset(b)|;
    }
  }

  /** Code-point lexicographic order is a total order on strings. */
  lemma StrLeTotalOrder()
    ensures TotalPreorder(StrLe) && Reflexive(StrLe) && Antisymmetric(StrLe)
  {
    forall a, b ensures StrLe(a, b) || StrLe(b, a) {
      StrLeTotal(a, b);
    }
    forall a, b, c | StrLe(a, b) && StrLe(b, c) ensures StrLe(a, c) {
      StrLeTransitive(a, b, c);
    }
    forall a, b | StrLe(a, b) && StrLe(b, a) ensures a == b {
      StrLeAntisymmetric(a, b);
    }
  }
}
