/**
 The stable sort behind Python's `sorted`: an element moves only in front of
 elements it is strictly before, so ties keep the order of the input.
 */
module StableSort {
  import opened Common

  function Insert<T>(x: T, s: seq<T>, before: (T, T) -> bool): (r: seq<T>) {
    if s == [] then [x]
    else if before(x, s[0]) then [x] + s
    else [s[0]] + Insert(x, s[1..], before)
  }

  function Sort<T>(s: seq<T>, before: (T, T) -> bool): (r: seq<T>) {
    if s == [] then []
    else Insert(s[|s| - 1], Sort(s[..|s| - 1], before), before)
  }

  ghost predicate Ordered<T>(s: seq<T>, before: (T, T) -> bool) {
    forall i, j :: 0 <= i < j < |s| ==> !before(s[j], s[i])
  }

  /** A strict order whose ties form classes, as comparing keys with < gives. */
  ghost predicate WeakOrder<T(!new)>(before: (T, T) -> bool) {
    && (forall x, y :: before(x, y) ==> !before(y, x))
    && (forall x, y, z :: !before(x, y) && !before(y, z) ==> !before(x, z))
  }

  lemma {:induction false} InsertPermutes<T>(x: T, s: seq<T>, before: (T, T) -> bool)
    ensures multiset(Insert(x, s, before)) == multiset(s) + multiset{x}
  {
    if s != [] {
      assert s == [s[0]] + s[1..];
      InsertPermutes(x, s[1..], before);
    }
  }

  lemma {:induction false} SortPermutes<T>(s: seq<T>, before: (T, T) -> bool)
    ensures multiset(Sort(s, before)) == multiset(s)
    ensures |Sort(s, before)| == |s|
  {
    if s != [] {
      var init, last := s[..|s| - 1], s[|s| - 1];
      assert s == init + [last];
      SortPermutes(init, before);
      InsertPermutes(last, Sort(init, before), before);
    }
    assert |multiset(Sort(s, before))| == |multiset(s)|;
  }

  lemma SortMember<T>(s: seq<T>, before: (T, T) -> bool, x: T)
    ensures x in Sort(s, before) <==> x in s
  {
    SortPermutes(s, before);
    assert x in multiset(s) <==> x in multiset(Sort(s, before));
  }

  lemma {:induction false} InsertOrdered<T(!new)>(x: T, s: seq<T>, before: (T, T) -> bool)
    requires WeakOrder(before) && Ordered(s, before)
    ensures Ordered(Insert(x, s, before), before)
  {
    if s != [] {
      var rest := Insert(x, s[1..], before);
      if before(x, s[0]) {
        forall j | 0 <= j < |s| ensures !before(s[j], x) {
          assert !before(s[0], x);
        }
      } else {
        InsertOrdered(x, s[1..], before);
        forall y | y in rest ensures !before(y, s[0]) {
          InsertPermutes(x, s[1..], before);
          assert y in multiset(rest);
        }
        assert Insert(x, s, before) == [s[0]] + rest;
      }
    }
  }

  lemma {:induction false} SortOrdered<T(!new)>(s: seq<T>, before: (T, T) -> bool)
    requires WeakOrder(before)
    ensures Ordered(Sort(s, before), before)
  {
    if s != [] {
      SortOrdered(s[..|s| - 1], before);
      InsertOrdered(s[|s| - 1], Sort(s[..|s| - 1], before), before);
    }
  }

  lemma {:induction false} FilterInsert<T(!new)>(x: T, s: seq<T>, before: (T, T) -> bool, keep: T -> bool)
    requires WeakOrder(before) && Ordered(s, before)
    ensures Filter(Insert(x, s, before), keep)
         == if keep(x) then Insert(x, Filter(s, keep), before) else Filter(s, keep)
  {
    if s != [] {
      if before(x, s[0]) {
        assert ([x] + s)[1..] == s;
        InsertFirst(x, s, before, keep);
      } else {
        FilterInsert(x, s[1..], before, keep);
        assert Insert(x, s, before)[1..] == Insert(x, s[1..], before);
        var tail := Filter(s[1..], keep);
        assert ([s[0]] + tail)[1..] == tail && [] + tail == tail;
        assert [] + Insert(x, tail, before) == Insert(x, tail, before);
      }
    }
  }

  /** An element before the whole of an ordered list goes in front of any part of it. */
  lemma {:induction false} InsertFirst<T(!new)>(x: T, s: seq<T>, before: (T, T) -> bool, keep: T -> bool)
    requires WeakOrder(before) && Ordered(s, before)
    requires s != [] ==> before(x, s[0])
    ensures Insert(x, Filter(s, keep), before) == [x] + Filter(s, keep)
  {
    var kept := Filter(s, keep);
    if kept != [] {
      FilterMember(s, keep, kept[0]);
      var j :| 0 <= j < |s| && s[j] == kept[0];
      assert !before(s[j], s[0]) || j == 0;
      assert before(x, s[j]);
    }
  }

  /** Stability: sorting and filtering commute, so every selection keeps its own order. */
  lemma {:induction false} FilterSort<T(!new)>(s: seq<T>, before: (T, T) -> bool, keep: T -> bool)
    requires WeakOrder(before)
    ensures Filter(Sort(s, before), keep) == Sort(Filter(s, keep), before)
  {
    if s != [] {
      var init, last := s[..|s| - 1], s[|s| - 1];
      assert s == init + [last];
      FilterSort(init, before, keep);
      SortOrdered(init, before);
      FilterInsert(last, Sort(init, before), before, keep);
      FilterAppend(init, [last], keep);
      if keep(last) {
        var f := Filter(s, keep);
        assert f == Filter(init, keep) + [last];
        assert f[..|f| - 1] == Filter(init, keep);
      } else {
        assert Filter(s, keep) == Filter(init, keep);
      }
    }
  }

  /** A list in which all tie stays as it is. */
  lemma {:induction false} InsertTied<T>(x: T, s: seq<T>, before: (T, T) -> bool)
    requires forall y :: y in s ==> !before(x, y)
    ensures Insert(x, s, before) == s + [x]
  {
    if s == [] {
      assert s + [x] == [x];
    } else {
      InsertTied(x, s[1..], before);
      assert [s[0]] + (s[1..] + [x]) == s + [x];
    }
  }

  lemma {:induction false} SortTied<T>(s: seq<T>, before: (T, T) -> bool)
    requires forall x, y :: x in s && y in s ==> !before(x, y)
    ensures Sort(s, before) == s
  {
    if s != [] {
      var init, last := s[..|s| - 1], s[|s| - 1];
      assert s == init + [last];
      SortTied(init, before);
      InsertTied(last, init, before);
    }
  }
}
