/** A stable sort: what Rust's `sort_by` returns. */
module StableSort {
  ghost predicate WeakOrder<T(!new)>(less: (T, T) -> bool) {
    && (forall a, b :: !(less(a, b) && less(b, a)))
    && (forall a, b, c :: !less(a, b) && !less(b, c) ==> !less(a, c))
  }

  function Insert<T>(less: (T, T) -> bool, x: T, s: seq<T>): seq<T> {
    if s == [] || !less(s[0], x) then [x] + s else [s[0]] + Insert(less, x, s[1..])
  }

  function SortBy<T>(less: (T, T) -> bool, s: seq<T>): seq<T> {
    if s == [] then [] else Insert(less, s[0], SortBy(less, s[1..]))
  }

  ghost predicate Sorted<T>(less: (T, T) -> bool, s: seq<T>) {
    forall i, j :: 0 <= i < j < |s| ==> !less(s[j], s[i])
  }

  lemma {:induction false} InsertElements<T>(less: (T, T) -> bool, x: T, s: seq<T>)
    ensures multiset(Insert(less, x, s)) == multiset([x] + s)
  {
    if s != [] && less(s[0], x) {
      InsertElements(less, x, s[1..]);
      assert s == [s[0]] + s[1..];
    }
  }

  lemma {:induction false} InsertSorted<T(!new)>(less: (T, T) -> bool, x: T, s: seq<T>)
    requires WeakOrder(less) && Sorted(less, s)
    ensures Sorted(less, Insert(less, x, s))
  {
    if s == [] {
    } else if less(s[0], x) {
      InsertSorted(less, x, s[1..]);
      var tail := Insert(less, x, s[1..]);
      InsertElements(less, x, s[1..]);
      forall j | 0 <= j < |tail| ensures !less(tail[j], s[0]) {
        assert tail[j] in multiset(tail);
        assert tail[j] == x || tail[j] in s[1..];
      }
    } else {
      forall j | 0 <= j < |s| ensures !less(s[j], x) {
        assert j == 0 || !less(s[j], s[0]);
      }
    }
  }

  /** The result is in order and has the same elements. */
  lemma {:induction false} SortBySorts<T(!new)>(less: (T, T) -> bool, s: seq<T>)
    requires WeakOrder(less)
    ensures Sorted(less, SortBy(less, s))
    ensures multiset(SortBy(less, s)) == multiset(s)
    ensures |SortBy(less, s)| == |s|
  {
    if s != [] {
      SortBySorts(less, s[1..]);
      InsertSorted(less, s[0], SortBy(less, s[1..]));
      InsertElements(less, s[0], SortBy(less, s[1..]));
      assert s == [s[0]] + s[1..];
      assert |multiset(SortBy(less, s))| == |multiset(s)|;
    }
  }

  /** The elements that compare equal to `x`, in order. */
  function EqualTo<T>(less: (T, T) -> bool, x: T, s: seq<T>): seq<T> {
    if s == [] then []
    else (if less(x, s[0]) || less(s[0], x) then [] else [s[0]]) + EqualTo(less, x, s[1..])
  }

  lemma {:induction false} InsertStable<T(!new)>(less: (T, T) -> bool, x: T, s: seq<T>, y: T)
    requires WeakOrder(less)
    ensures EqualTo(less, y, Insert(less, x, s)) == EqualTo(less, y, [x] + s)
  {
    if s != [] && less(s[0], x) {
      InsertStable(less, x, s[1..], y);
      var tail := Insert(less, x, s[1..]);
      assert ([s[0]] + tail)[1..] == tail;
      assert ([x] + s)[1..] == s && ([x] + s[1..])[1..] == s[1..];
    }
  }

  /** Elements that compare equal keep their order. */
  lemma {:induction false} SortByStable<T(!new)>(less: (T, T) -> bool, s: seq<T>, y: T)
    requires WeakOrder(less)
    ensures EqualTo(less, y, SortBy(less, s)) == EqualTo(less, y, s)
  {
    if s != [] {
      SortByStable(less, s[1..], y);
      var tail := SortBy(less, s[1..]);
      InsertStable(less, s[0], tail, y);
      assert ([s[0]] + tail)[1..] == tail;
    }
  }

  /** `s[i]` is the least element, and the first of those that compare equal to it. */
  ghost predicate FirstLeast<T>(less: (T, T) -> bool, s: seq<T>, i: nat) {
    && i < |s|
    && (forall j :: 0 <= j < |s| ==> !less(s[j], s[i]))
    && (forall j :: 0 <= j < i ==> less(s[i], s[j]))
  }

  /** Sorting and taking the head finds the first least element. */
  lemma {:induction false} HeadIsFirstLeast<T(!new)>(less: (T, T) -> bool, s: seq<T>) returns (i: nat)
    requires WeakOrder(less) && s != []
    ensures FirstLeast(less, s, i) && |SortBy(less, s)| == |s| && SortBy(less, s)[0] == s[i]
  {
    SortBySorts(less, s);
    if |s| == 1 {
      return 0;
    }
    var k := HeadIsFirstLeast(less, s[1..]);
    assert forall j :: 1 <= j < |s| ==> s[j] == s[1..][j - 1];
    i := if less(s[k + 1], s[0]) then k + 1 else 0;
    if i == 0 {
      forall j | 0 <= j < |s| ensures !less(s[j], s[0]) {
        if j > 0 {
          assert !less(s[j], s[k + 1]);
        }
      }
    }
  }
}
