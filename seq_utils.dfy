/** Sequence helpers shared by the modules: duplicate-free insertion
    (`Utils::push_back_if_not_present`), order-preserving filtering
    (`erase(remove_if(...))`) and the distinct values of a query column. */
module SeqUtils {

  /** No element occurs twice. */
  predicate NoDup<T(==)>(s: seq<T>) {
    forall i, j :: 0 <= i < j < |s| ==> s[i] != s[j]
  }

  /** Appends `x` unless it is already present. */
  function PushIfAbsent<T(==,!new)>(s: seq<T>, x: T): (r: seq<T>)
    ensures x in r
    ensures forall y :: y in r <==> y in s || y == x
    ensures |s| <= |r| <= |s| + 1 && r[..|s|] == s
    ensures NoDup(s) ==> NoDup(r)
  {
    if x in s then s else s + [x]
  }

  /** The elements of `s` that satisfy `keep`, in their original order. */
  function Filter<T(!new)>(s: seq<T>, keep: T -> bool): (r: seq<T>)
    ensures |r| <= |s|
    ensures forall y :: y in r <==> y in s && keep(y)
  {
    if |s| == 0 then []
    else
      var last := s[|s| - 1];
      assert s == s[..|s| - 1] + [last];
      Filter(s[..|s| - 1], keep) + (if keep(last) then [last] else [])
  }

  lemma {:induction false} FilterNoDup<T(!new)>(s: seq<T>, keep: T -> bool)
    requires NoDup(s)
    ensures NoDup(Filter(s, keep))
  {
    if |s| > 0 {
      var init := s[..|s| - 1];
      assert NoDup(init);
      FilterNoDup(init, keep);
      assert s[|s| - 1] !in init;
    }
  }

  /** The distinct values of `s`, in order of first occurrence: the result of
      a `GROUP BY` over one column. */
  function Distinct<T(==,!new)>(s: seq<T>): (r: seq<T>)
    ensures NoDup(r)
    ensures forall y :: y in r <==> y in s
    ensures |r| <= |s|
  {
    if |s| == 0 then []
    else
      var init := s[..|s| - 1];
      assert s == init + [s[|s| - 1]];
      PushIfAbsent(Distinct(init), s[|s| - 1])
  }

  /** The distinct values are exactly `[x]` when the column is non-empty and
      every value in it is `x`. */
  lemma {:induction false} DistinctSingleton<T(!new)>(s: seq<T>, x: T)
    ensures Distinct(s) == [x] <==> |s| > 0 && forall y :: y in s ==> y == x
  {
    if |s| > 0 && forall y :: y in s ==> y == x {
      DistinctOfConstant(s, x);
    }
    if Distinct(s) == [x] {
      assert x in s;
    }
  }

  lemma {:induction false} DistinctOfConstant<T(!new)>(s: seq<T>, x: T)
    requires |s| > 0 && forall y :: y in s ==> y == x
    ensures Distinct(s) == [x]
  {
    var init := s[..|s| - 1];
    assert s == init + [s[|s| - 1]];
    if |init| > 0 {
      assert forall y :: y in init ==> y in s;
      DistinctOfConstant(init, x);
    }
  }

  /** More than one distinct value exactly when two different values occur. */
  lemma {:induction false} DistinctMoreThanOne<T(!new)>(s: seq<T>)
    ensures |Distinct(s)| > 1 <==> exists i, j :: 0 <= i < |s| && 0 <= j < |s| && s[i] != s[j]
  {
    var d := Distinct(s);
    if |d| > 1 {
      assert d[0] != d[1];
      assert d[0] in s && d[1] in s;
      var i :| 0 <= i < |s| && s[i] == d[0];
      var j :| 0 <= j < |s| && s[j] == d[1];
      assert s[i] != s[j];
    }
    if exists i, j :: 0 <= i < |s| && 0 <= j < |s| && s[i] != s[j] {
      var i, j :| 0 <= i < |s| && 0 <= j < |s| && s[i] != s[j];
      assert s[i] in d && s[j] in d;
    }
  }

  /** The elements of `s`, as a set. */
  function Elems<T(!new)>(s: seq<T>): set<T> {
    set x | x in s
  }

  /** A duplicate-free sequence has as many elements as its set. */
  lemma {:induction false} NoDupCard<T(!new)>(s: seq<T>)
    requires NoDup(s)
    ensures |Elems(s)| == |s|
  {
    if |s| > 0 {
      var init, last := s[..|s| - 1], s[|s| - 1];
      assert NoDup(init);
      NoDupCard(init);
      assert s == init + [last];
      assert Elems(s) == Elems(init) + {last};
      assert last !in Elems(init);
    }
  }

  /** A duplicate-free sequence drawn from `e` is no longer than `e`, and
      covers `e` exactly when it is as long. */
  lemma NoDupWithin<T(!new)>(s: seq<T>, e: set<T>)
    requires NoDup(s) && forall x :: x in s ==> x in e
    ensures |s| <= |e|
    ensures |s| == |e| <==> forall x :: x in e ==> x in s
  {
    NoDupCard(s);
    assert Elems(s) <= e;
    if |s| == |e| {
      assert |e - Elems(s)| == 0;
    }
    if forall x :: x in e ==> x in s {
      assert Elems(s) == e;
    }
  }

  /** Removing the element at `i` removes that element and keeps the others. */
  lemma RemoveAt<T(!new)>(s: seq<T>, i: nat)
    requires NoDup(s) && i < |s|
    ensures NoDup(s[..i] + s[i + 1..])
    ensures |s[..i] + s[i + 1..]| == |s| - 1
    ensures forall x :: x in s[..i] + s[i + 1..] <==> x in s && x != s[i]
  {
    var r := s[..i] + s[i + 1..];
    assert forall k :: 0 <= k < |r| ==> r[k] == if k < i then s[k] else s[k + 1];
    forall x | x in s && x != s[i] ensures x in r {
      var k :| 0 <= k < |s| && s[k] == x;
      if k < i { assert r[k] == x; } else { assert r[k - 1] == x; }
    }
  }
}
