/** The bucketing step shared by `Release::getClusterGroups`
    (Release.cpp, lines 514-527) and `TrackList::getClusterGroups`
    (TrackList.cpp, lines 229-237): the clusters the query returns, most used
    first, are spread into one list per cluster type, each list taking at most
    `size` clusters; the lists are then emitted in ascending cluster type id
    order, as a `std::map` iterates them.

    Looking a type up with `operator[]` creates its list even when nothing is
    pushed into it, so with `size == 0` every type present in the query still
    yields an empty group. */
module ClusterGroups {
  import opened SeqUtils

  type ClusterId = nat
  type ClusterTypeId = nat

  datatype Cluster = Cluster(id: ClusterId, typeId: ClusterTypeId, name: string)

  /** The lists after the bucketing loop has seen the clusters of `q`. */
  function Buckets(q: seq<Cluster>, size: nat): map<ClusterTypeId, seq<Cluster>> {
    if |q| == 0 then map[]
    else
      var b := Buckets(q[..|q| - 1], size);
      var c := q[|q| - 1];
      var bucket := if c.typeId in b then b[c.typeId] else [];
      b[c.typeId := if |bucket| < size then bucket + [c] else bucket]
  }

  /** The clusters of one type, in query order. */
  function OfType(q: seq<Cluster>, t: ClusterTypeId): seq<Cluster> {
    Filter(q, (c: Cluster) => c.typeId == t)
  }

  /** The first `n` elements of `s`, or all of them. */
  function Take<T>(s: seq<T>, n: nat): (r: seq<T>)
    ensures |r| == if |s| < n then |s| else n
  {
    if |s| <= n then s else s[..n]
  }

  /** The least member of a non-empty set. */
  ghost function Least(s: set<ClusterTypeId>): (m: ClusterTypeId)
    requires s != {}
    ensures m in s && forall k :: k in s ==> m <= k
  {
    MinExists(s);
    var m :| m in s && forall k :: k in s ==> m <= k; m
  }

  /** The keys of `s` in ascending order. */
  ghost function SortedKeys(s: set<ClusterTypeId>): seq<ClusterTypeId>
    decreases s
  {
    if s == {} then [] else [Least(s)] + SortedKeys(s - {Least(s)})
  }

  /** The sorted keys are the keys, in strictly ascending order. */
  lemma SortedKeysAre(s: set<ClusterTypeId>)
    ensures forall k :: k in SortedKeys(s) <==> k in s
    ensures forall i, j :: 0 <= i < j < |SortedKeys(s)| ==> SortedKeys(s)[i] < SortedKeys(s)[j]
  {
    SortedKeysMembers(s);
    SortedKeysIncreasing(s);
  }

  lemma {:induction false} SortedKeysMembers(s: set<ClusterTypeId>)
    ensures forall k :: k in SortedKeys(s) <==> k in s
    decreases s
  {
    if s != {} {
      var m := Least(s);
      assert SortedKeys(s) == [m] + SortedKeys(s - {m});
      SortedKeysMembers(s - {m});
    }
  }

  lemma {:induction false} SortedKeysIncreasing(s: set<ClusterTypeId>)
    ensures forall i, j :: 0 <= i < j < |SortedKeys(s)| ==> SortedKeys(s)[i] < SortedKeys(s)[j]
    decreases s
  {
    if s != {} {
      var m := Least(s);
      var rest := SortedKeys(s - {m});
      assert SortedKeys(s) == [m] + rest;
      SortedKeysIncreasing(s - {m});
      SortedKeysMembers(s - {m});
      forall i, j | 0 <= i < j < |SortedKeys(s)| ensures SortedKeys(s)[i] < SortedKeys(s)[j] {
        assert SortedKeys(s)[j] == rest[j - 1];
        assert rest[j - 1] in s - {m};
        if i > 0 {
          assert SortedKeys(s)[i] == rest[i - 1];
        }
      }
    }
  }

  /** What `getClusterGroups` returns for the query results `q`. */
  ghost function Groups(q: seq<Cluster>, size: nat): seq<seq<Cluster>> {
    GroupsOf(Buckets(q, size))
  }

  /** The lists of a map, in ascending key order. */
  ghost function GroupsOf(b: map<ClusterTypeId, seq<Cluster>>): seq<seq<Cluster>> {
    var keys := SortedKeys(b.Keys);
    SortedKeysAre(b.Keys);
    assert forall i :: 0 <= i < |keys| ==> keys[i] in b;
    seq(|keys|, i requires 0 <= i < |keys| && keys[i] in b => b[keys[i]])
  }

  lemma MinExists(s: set<ClusterTypeId>)
    requires s != {}
    ensures exists m :: m in s && forall k :: k in s ==> m <= k
  {
    var x :| x in s;
    MinBelow(s, x);
  }

  /** Descending from any member reaches a least one. */
  lemma {:induction false} MinBelow(s: set<ClusterTypeId>, x: ClusterTypeId)
    requires x in s
    ensures exists m :: m in s && forall k :: k in s ==> m <= k
    decreases x
  {
    if !forall k :: k in s ==> x <= k {
      var y :| y in s && y < x;
      MinBelow(s, y);
    }
  }

  /** The sorted keys start with the least key. */
  lemma SortedKeysMin(s: set<ClusterTypeId>, m: ClusterTypeId)
    requires m in s && forall k :: k in s ==> m <= k
    ensures SortedKeys(s) == [m] + SortedKeys(s - {m})
  {
    assert Least(s) == m;
  }

  /** One cluster more: its type's list grows unless it is full. */
  lemma OfTypeSnoc(q: seq<Cluster>, c: Cluster, t: ClusterTypeId)
    ensures OfType(q + [c], t) == OfType(q, t) + (if c.typeId == t then [c] else [])
  {
    assert (q + [c])[..|q|] == q;
  }

  /** A type that does not occur has no clusters. */
  lemma {:induction false} OfTypeAbsent(q: seq<Cluster>, t: ClusterTypeId)
    requires forall c :: c in q ==> c.typeId != t
    ensures OfType(q, t) == []
  {
    if |q| > 0 {
      var init := q[..|q| - 1];
      assert q == init + [q[|q| - 1]];
      OfTypeAbsent(init, t);
    }
  }

  /** There is a list exactly for the cluster types that occur. */
  lemma {:induction false} BucketsKeys(q: seq<Cluster>, size: nat)
    ensures forall t :: t in Buckets(q, size) <==> exists c :: c in q && c.typeId == t
  {
    if |q| > 0 {
      var init, c := q[..|q| - 1], q[|q| - 1];
      assert q == init + [c];
      BucketsKeys(init, size);
      forall t | exists d :: d in q && d.typeId == t
        ensures t in Buckets(q, size)
      {
        var d :| d in q && d.typeId == t;
        if d != c { assert d in init; }
      }
    }
  }

  /** The list of each type holds the first `size` clusters of that type,
      in query order. */
  lemma BucketsLists(q: seq<Cluster>, size: nat)
    ensures forall t :: t in Buckets(q, size) ==> Buckets(q, size)[t] == Take(OfType(q, t), size)
  {
    forall t | t in Buckets(q, size)
      ensures Buckets(q, size)[t] == Take(OfType(q, t), size)
    {
      BucketsListAt(q, size, t);
    }
  }

  lemma {:induction false} BucketsListAt(q: seq<Cluster>, size: nat, t: ClusterTypeId)
    requires t in Buckets(q, size)
    ensures Buckets(q, size)[t] == Take(OfType(q, t), size)
  {
    var init, c := q[..|q| - 1], q[|q| - 1];
    assert q == init + [c];
    var b := Buckets(init, size);
    OfTypeSnoc(init, c, t);
    if t != c.typeId {
      BucketsListAt(init, size, t);
    } else if t in b {
      BucketsListAt(init, size, t);
      var x := OfType(init, t);
      if size <= |x| {
        assert (x + [c])[..size] == x[..size];
      }
    } else {
      BucketsKeys(init, size);
      assert forall d :: d in init ==> d.typeId != t;
      OfTypeAbsent(init, t);
    }
  }

  /** Every group holds at most `size` clusters, all of one type, in the
      order of the query. */
  lemma GroupsBounded(q: seq<Cluster>, size: nat, i: nat)
    requires i < |Groups(q, size)|
    ensures |Groups(q, size)[i]| <= size
    ensures exists t :: Groups(q, size)[i] == Take(OfType(q, t), size)
    ensures forall c, d :: c in Groups(q, size)[i] && d in Groups(q, size)[i] ==> c.typeId == d.typeId
  {
    BucketsKeys(q, size);
    BucketsLists(q, size);
    var keys := SortedKeys(Buckets(q, size).Keys);
    SortedKeysAre(Buckets(q, size).Keys);
    var t := keys[i];
    assert Groups(q, size)[i] == Take(OfType(q, t), size);
    forall c | c in Groups(q, size)[i] ensures c.typeId == t {
      assert c in OfType(q, t);
    }
  }

  /** A query whose clusters all have one type yields a single group: its
      first `size` clusters. */
  lemma GroupsOfOneType(q: seq<Cluster>, t: ClusterTypeId, size: nat)
    requires |q| > 0 && forall c :: c in q ==> c.typeId == t
    ensures Groups(q, size) == [Take(q, size)]
  {
    BucketsKeys(q, size);
    BucketsLists(q, size);
    var b := Buckets(q, size);
    assert q[0] in q;
    assert b.Keys == {t};
    OfTypeAll(q, t);
    assert SortedKeys({t}) == [t] by {
      assert Least({t}) == t;
      assert {t} - {t} == {};
    }
  }

  lemma {:induction false} OfTypeAll(q: seq<Cluster>, t: ClusterTypeId)
    requires forall c :: c in q ==> c.typeId == t
    ensures OfType(q, t) == q
  {
    if |q| > 0 {
      var init := q[..|q| - 1];
      assert q == init + [q[|q| - 1]];
      OfTypeAll(init, t);
    }
  }

  /** Every grouped cluster comes from the query. */
  lemma GroupsWithin(q: seq<Cluster>, size: nat, i: nat, c: Cluster)
    requires i < |Groups(q, size)| && c in Groups(q, size)[i]
    ensures c in q
  {
    GroupsBounded(q, size, i);
    var t :| Groups(q, size)[i] == Take(OfType(q, t), size);
    assert c in OfType(q, t);
  }

  /** Groups come in strictly ascending cluster type order. */
  lemma GroupsAscending(q: seq<Cluster>, size: nat, i: nat, j: nat, c: Cluster, d: Cluster)
    requires i < j < |Groups(q, size)|
    requires c in Groups(q, size)[i] && d in Groups(q, size)[j]
    ensures c.typeId < d.typeId
  {
    BucketsKeys(q, size);
    BucketsLists(q, size);
    var keys := SortedKeys(Buckets(q, size).Keys);
    SortedKeysAre(Buckets(q, size).Keys);
    assert c in OfType(q, keys[i]);
    assert d in OfType(q, keys[j]);
  }

  /** There is one group per cluster type occurring in the query. */
  lemma GroupsPerType(q: seq<Cluster>, size: nat)
    ensures |Groups(q, size)| == |set c | c in q :: c.typeId|
  {
    BucketsKeys(q, size);
    var b := Buckets(q, size);
    assert b.Keys == set c | c in q :: c.typeId;
    SortedKeysCard(b.Keys);
  }

  /** With `size == 0` every group is there but empty. */
  lemma GroupsEmptyWhenNoRoom(q: seq<Cluster>, i: nat)
    requires i < |Groups(q, 0)|
    ensures Groups(q, 0)[i] == []
  {
    BucketsLists(q, 0);
    SortedKeysAre(Buckets(q, 0).Keys);
  }

  lemma SortedKeysCard(s: set<ClusterTypeId>)
    ensures |SortedKeys(s)| == |s|
  {
    var keys := SortedKeys(s);
    SortedKeysAre(s);
    assert NoDup(keys);
    NoDupCard(keys);
    assert Elems(keys) == s;
  }

  /** `getClusterGroups` on the query results `q`. */
  method GroupClusters(q: seq<Cluster>, size: nat) returns (res: seq<seq<Cluster>>)
    ensures res == Groups(q, size)
  {
    var byType := BucketClusters(q, size);
    res := EmitGroups(byType);
  }

  /** The bucketing loop: `operator[]` creates the type's list, which takes
      the cluster only while it holds fewer than `size`. */
  method BucketClusters(q: seq<Cluster>, size: nat) returns (byType: map<ClusterTypeId, seq<Cluster>>)
    ensures byType == Buckets(q, size)
  {
    byType := map[];
    for k := 0 to |q|
      invariant byType == Buckets(q[..k], size)
    {
      var c := q[k];
      assert q[..k + 1][..k] == q[..k];
      if c.typeId !in byType {
        byType := byType[c.typeId := []];
      }
      if |byType[c.typeId]| < size {
        byType := byType[c.typeId := byType[c.typeId] + [c]];
      }
    }
    assert q[..|q|] == q;
  }

  /** The emission loop: the lists in ascending type order. */
  method EmitGroups(byType: map<ClusterTypeId, seq<Cluster>>) returns (res: seq<seq<Cluster>>)
    ensures res == GroupsOf(byType)
  {
    ghost var all := SortedKeys(byType.Keys);
    ghost var emitted: seq<ClusterTypeId> := [];
    var left := byType.Keys;
    res := [];
    while left != {}
      invariant left <= byType.Keys
      invariant all == emitted + SortedKeys(left)
      invariant |res| == |emitted| && forall i :: 0 <= i < |res| ==> emitted[i] in byType && res[i] == byType[emitted[i]]
      decreases left
    {
      MinExists(left);
      var m :| m in left && forall k :: k in left ==> m <= k;
      SortedKeysMin(left, m);
      assert emitted + SortedKeys(left) == (emitted + [m]) + SortedKeys(left - {m});
      res := res + [byType[m]];
      emitted := emitted + [m];
      left := left - {m};
    }
    assert emitted == all;
    assert forall i :: 0 <= i < |res| ==> res[i] == GroupsOf(byType)[i];
  }
}
