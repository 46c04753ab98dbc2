/** Kotlin's `sortedWith(comparator)`: a stable sort of a copy of the list. */
module Sorting {

  /** A `java.util.Comparator`: negative, zero or positive as the first
      argument sorts before, level with or after the second. */
  type Comparator<!T> = (T, T) -> int

  /** "Sorts no later than" is total and transitive. Every comparator that
      keeps Java's `Comparator` contract is such a total preorder; the
      contract also demands sign symmetry, which this predicate does not. */
  ghost predicate IsTotalPreorder<T(!new)>(cmp: Comparator<T>) {
    && (forall a, b :: cmp(a, b) <= 0 || cmp(b, a) <= 0)
    && (forall a, b, c :: cmp(a, b) <= 0 && cmp(b, c) <= 0 ==> cmp(a, c) <= 0)
  }

  ghost predicate SortedBy<T>(cmp: Comparator<T>, s: seq<T>) {
    forall i, j :: 0 <= i < j < |s| ==> cmp(s[i], s[j]) <= 0
  }

  /** Puts `x` in front of the first element it does not sort after, so
      that it stays ahead of elements it ties with. */
  function Insert<T>(x: T, s: seq<T>, cmp: Comparator<T>): (r: seq<T>)
    ensures |r| == |s| + 1
    ensures multiset(r) == multiset(s) + multiset{x}
  {
    if |s| == 0 then [x]
    else if cmp(x, s[0]) <= 0 then [x] + s
    else
      assert s == [s[0]] + s[1..];
      [s[0]] + Insert(x, s[1..], cmp)
  }

  /** The sorted copy: each element is inserted, last to first, ahead of the
      elements it ties with, which keeps equal elements in their original order. */
  function SortedWith<T>(s: seq<T>, cmp: Comparator<T>): (r: seq<T>)
    ensures |r| == |s|
    ensures multiset(r) == multiset(s)
  {
    if |s| == 0 then []
    else
      assert s == [s[0]] + s[1..];
      Insert(s[0], SortedWith(s[1..], cmp), cmp)
  }

  lemma PrependSorted<T>(h: T, tail: seq<T>, cmp: Comparator<T>)
    requires SortedBy(cmp, tail)
    requires forall j :: 0 <= j < |tail| ==> cmp(h, tail[j]) <= 0
    ensures SortedBy(cmp, [h] + tail)
  {
    var r := [h] + tail;
    forall i, j | 0 <= i < j < |r| ensures cmp(r[i], r[j]) <= 0 {
      if i > 0 {
        assert r[i] == tail[i - 1] && r[j] == tail[j - 1];
      } else {
        assert r[j] == tail[j - 1];
      }
    }
  }

  lemma {:induction false} InsertSorted<T(!new)>(x: T, s: seq<T>, cmp: Comparator<T>)
    requires IsTotalPreorder(cmp)
    requires SortedBy(cmp, s)
    ensures SortedBy(cmp, Insert(x, s, cmp))
    decreases |s|
  {
    if |s| == 0 {
    } else if cmp(x, s[0]) <= 0 {
      forall j | 0 <= j < |s| ensures cmp(x, s[j]) <= 0 {
        if j > 0 {
          assert cmp(s[0], s[j]) <= 0;
        }
      }
      PrependSorted(x, s, cmp);
    } else {
      var rest := s[1..];
      var tail := Insert(x, rest, cmp);
      assert SortedBy(cmp, rest) by {
        forall i, j | 0 <= i < j < |rest| ensures cmp(rest[i], rest[j]) <= 0 {
          assert rest[i] == s[i + 1] && rest[j] == s[j + 1];
        }
      }
      InsertSorted(x, rest, cmp);
      assert cmp(s[0], x) <= 0;
      forall j | 0 <= j < |tail| ensures cmp(s[0], tail[j]) <= 0 {
        var y := tail[j];
        assert y in multiset(tail);
        if y != x {
          assert y in multiset(rest);
          var k :| 0 <= k < |rest| && rest[k] == y;
          assert rest[k] == s[k + 1];
        }
      }
      PrependSorted(s[0], tail, cmp);
    }
  }

  /** The sorted copy is ordered by the comparator whenever the comparator
      honours its contract. */
  lemma {:induction false} SortedWithSorted<T(!new)>(s: seq<T>, cmp: Comparator<T>)
    requires IsTotalPreorder(cmp)
    ensures SortedBy(cmp, SortedWith(s, cmp))
    decreases |s|
  {
    if |s| > 0 {
      SortedWithSorted(s[1..], cmp);
      InsertSorted(s[0], SortedWith(s[1..], cmp), cmp);
    }
  }

  /** The elements of `s` that `keep` selects, in their order in `s`. */
  function Filter<T>(s: seq<T>, keep: T -> bool): seq<T>
  {
    if |s| == 0 then []
    else (if keep(s[0]) then [s[0]] else []) + Filter(s[1..], keep)
  }

  /** `a` and `b` tie: neither sorts strictly before the other. */
  predicate Ties<T>(cmp: Comparator<T>, a: T, b: T) {
    cmp(a, b) <= 0 && cmp(b, a) <= 0
  }

  /** The elements that tie with `x`. */
  function TiesWith<T>(cmp: Comparator<T>, x: T): T -> bool {
    e => Ties(cmp, e, x)
  }

  /** Inserting a selected element that sorts no later than every selected
      element puts it first among them. */
  lemma {:induction false} InsertFilterKept<T>(y: T, t: seq<T>, cmp: Comparator<T>, keep: T -> bool)
    requires keep(y)
    requires forall i :: 0 <= i < |t| && keep(t[i]) ==> cmp(y, t[i]) <= 0
    ensures Filter(Insert(y, t, cmp), keep) == [y] + Filter(t, keep)
    decreases |t|
  {
    if |t| == 0 {
      assert Filter([y], keep) == [y] + Filter([y][1..], keep);
      assert [y][1..] == [];
    } else if cmp(y, t[0]) <= 0 {
      assert Insert(y, t, cmp) == [y] + t;
      assert ([y] + t)[1..] == t;
    } else {
      var tail := t[1..];
      var inserted := Insert(y, tail, cmp);
      assert !keep(t[0]);
      forall i | 0 <= i < |tail| && keep(tail[i]) ensures cmp(y, tail[i]) <= 0 {
        assert tail[i] == t[i + 1];
      }
      InsertFilterKept(y, tail, cmp, keep);
      assert Insert(y, t, cmp) == [t[0]] + inserted;
      assert ([t[0]] + inserted)[1..] == inserted;
      assert Filter(Insert(y, t, cmp), keep) == Filter(inserted, keep);
      assert Filter(t, keep) == Filter(tail, keep);
    }
  }

  /** Inserting an element the filter drops leaves the selection unchanged. */
  lemma {:induction false} InsertFilterDropped<T>(y: T, t: seq<T>, cmp: Comparator<T>, keep: T -> bool)
    requires !keep(y)
    ensures Filter(Insert(y, t, cmp), keep) == Filter(t, keep)
    decreases |t|
  {
    if |t| == 0 {
      assert [y][1..] == [];
    } else if cmp(y, t[0]) <= 0 {
      assert ([y] + t)[1..] == t;
    } else {
      InsertFilterDropped(y, t[1..], cmp, keep);
      assert ([t[0]] + Insert(y, t[1..], cmp))[1..] == Insert(y, t[1..], cmp);
    }
  }

  /** Stability: elements that tie keep their original relative order in
      the sorted copy. */
  lemma {:induction false} SortedWithStable<T(!new)>(s: seq<T>, cmp: Comparator<T>, x: T)
    requires IsTotalPreorder(cmp)
    ensures Filter(SortedWith(s, cmp), TiesWith(cmp, x)) == Filter(s, TiesWith(cmp, x))
    decreases |s|
  {
    if |s| > 0 {
      var keep := TiesWith(cmp, x);
      var rest := SortedWith(s[1..], cmp);
      SortedWithStable(s[1..], cmp, x);
      if keep(s[0]) {
        forall i | 0 <= i < |rest| && keep(rest[i]) ensures cmp(s[0], rest[i]) <= 0 {
          assert cmp(s[0], x) <= 0 && cmp(x, rest[i]) <= 0;
        }
        InsertFilterKept(s[0], rest, cmp, keep);
      } else {
        InsertFilterDropped(s[0], rest, cmp, keep);
      }
    }
  }
}
