/** `Database::TrackList` (TrackList.cpp): a playlist whose entries are kept
    in id order, the reads over those entries, the last-modified bookkeeping
    the entry hooks perform, and its cluster grouping. The database rows of
    the list's entries are the field `entries`; the ids the database hands
    out are the counter `nextEntryId`. */
module TrackLists {
  import opened Wrappers
  import opened SeqUtils
  import opened ClusterGroups

  type TrackId = nat
  type EntryId = nat
  /** A normalized date and time; `Utils::normalizeDateTime` and the clock
      are outside the model, their results come in as parameters. */
  type DateTime = int

  datatype TrackListType = Playlist | Internal
  datatype Entry = Entry(id: EntryId, trackId: TrackId, dateTime: DateTime)
  datatype Range = Range(offset: nat, size: nat)

  predicate IdOrdered(entries: seq<Entry>) {
    forall i, j :: 0 <= i < j < |entries| ==> entries[i].id < entries[j].id
  }

  /** The rows `ORDER BY id LIMIT size + 1 OFFSET offset` selects, or all of
      them without a range. */
  function Slice(entries: seq<Entry>, range: Option<Range>): (r: seq<Entry>)
    ensures range.None? ==> r == entries
    ensures range.Some? ==> |r| <= range.value.size + 1
    ensures range.Some? ==> forall i :: 0 <= i < |r| ==> range.value.offset + i < |entries| && r[i] == entries[range.value.offset + i]
    ensures range.Some? && range.value.offset < |entries| ==> |r| == Min(range.value.size + 1, |entries| - range.value.offset)
    ensures range.Some? && range.value.offset >= |entries| ==> r == []
  {
    match range
    case None => entries
    case Some(Range(offset, size)) =>
      if offset >= |entries| then []
      else entries[offset..offset + Min(size + 1, |entries| - offset)]
  }

  function Min(a: int, b: int): int { if a < b then a else b }

  /** Whatever the range, its first `size` entries are the `size` entries
      from `offset` on, as far as there are any. */
  lemma SlicePrefix(entries: seq<Entry>, offset: nat, size: nat, i: nat)
    requires i < size && offset + i < |entries|
    ensures i < |Slice(entries, Some(Range(offset, size)))|
    ensures Slice(entries, Some(Range(offset, size)))[i] == entries[offset + i]
  {
  }

  /** With two entries, `Range{1, 1}` selects exactly the second. */
  lemma SliceOneOfTwo(entries: seq<Entry>)
    requires |entries| == 2
    ensures Slice(entries, Some(Range(1, 1))) == [entries[1]]
  {
  }

  /** Removing one entry keeps the others in id order and below the next
      id. */
  lemma RemoveKeepsOrder(entries: seq<Entry>, pos: nat, nextId: EntryId)
    requires pos < |entries|
    requires IdOrdered(entries) && forall e :: e in entries ==> e.id < nextId
    ensures IdOrdered(entries[..pos] + entries[pos + 1..])
    ensures forall e :: e in entries[..pos] + entries[pos + 1..] ==> e.id < nextId
  {
    var r := entries[..pos] + entries[pos + 1..];
    assert forall i :: 0 <= i < |r| ==> r[i] == if i < pos then entries[i] else entries[i + 1];
  }

  class TrackList {
    var name: string
    var listType: TrackListType
    var isPublic: bool
    var creationDateTime: DateTime
    var lastModifiedDateTime: DateTime
    var entries: seq<Entry>
    var nextEntryId: EntryId

    ghost predicate Valid()
      reads this
    {
      IdOrdered(entries) && forall e :: e in entries ==> e.id < nextEntryId
    }

    /** A new list has no entries. Its creation and last-modification times
        are two separate readings of the clock, `created` then `modified`;
        they are equal only when both readings agree. */
    constructor (name: string, listType: TrackListType, isPublic: bool, created: DateTime, modified: DateTime)
      ensures Valid()
      ensures this.name == name && this.listType == listType && this.isPublic == isPublic
      ensures creationDateTime == created && lastModifiedDateTime == modified
      ensures created == modified ==> lastModifiedDateTime == creationDateTime
      ensures entries == [] && nextEntryId == 0
    {
      this.name := name;
      this.listType := listType;
      this.isPublic := isPublic;
      creationDateTime := created;
      lastModifiedDateTime := modified;
      entries := [];
      nextEntryId := 0;
    }

    /** `getCount()`: the number of positions that hold an entry. */
    function GetCount(): (n: nat)
      reads this
      ensures forall pos: nat :: pos < n <==> GetEntry(pos).Some?
    {
      |entries|
    }

    /** `getEntries(range)`: the list's entries in id order. */
    function GetEntries(range: Option<Range>): (r: seq<Entry>)
      reads this
      ensures forall e :: e in r ==> e in entries
    {
      Slice(entries, range)
    }

    /** `getEntry(pos)`: the entry at `pos`, or none past the end. */
    function GetEntry(pos: nat): (r: Option<Entry>)
      reads this
      ensures pos < |entries| ==> r == Some(entries[pos])
      ensures pos >= |entries| ==> r == None
    {
      var found := GetEntries(Some(Range(pos, 1)));
      if |found| == 0 then None else Some(found[0])
    }

    /** `isEmpty()`: no entries, so no count and no first entry. */
    predicate IsEmpty()
      reads this
      ensures IsEmpty() <==> GetCount() == 0
      ensures IsEmpty() <==> GetEntry(0).None?
    {
      |entries| == 0
    }

    /** `getTrackIds()`: the tracks of the entries, in the order the entries
        were added. */
    function GetTrackIds(): (r: seq<TrackId>)
      reads this
      ensures |r| == GetCount()
      ensures forall i :: 0 <= i < |r| ==> r[i] == entries[i].trackId
    {
      seq(|entries|, i requires 0 <= i < |entries| reads this => entries[i].trackId)
    }

    method SetLastModifiedDateTime(dateTime: DateTime)
      modifies this
      ensures lastModifiedDateTime == dateTime
      ensures entries == old(entries) && nextEntryId == old(nextEntryId)
      ensures creationDateTime == old(creationDateTime)
      ensures name == old(name) && listType == old(listType) && isPublic == old(isPublic)
    {
      lastModifiedDateTime := dateTime;
    }

    /** Creating an entry: the database gives it the next id, then its
        `onPostCreated` hook stamps the list with `now`. */
    method AddEntry(trackId: TrackId, dateTime: DateTime, now: DateTime) returns (e: Entry)
      requires Valid()
      modifies this
      ensures Valid()
      ensures e.trackId == trackId && e.dateTime == dateTime
      ensures entries == old(entries) + [e]
      ensures GetTrackIds() == old(GetTrackIds()) + [trackId]
      ensures lastModifiedDateTime == now && creationDateTime == old(creationDateTime)
      ensures name == old(name) && listType == old(listType) && isPublic == old(isPublic)
    {
      e := Entry(nextEntryId, trackId, dateTime);
      entries := entries + [e];
      nextEntryId := nextEntryId + 1;
      SetLastModifiedDateTime(now);
      assert GetTrackIds() == old(GetTrackIds()) + [trackId];
    }

    /** Removing the entry at `pos`: its `onPreRemove` hook stamps the list
        with `now`, then the row goes. */
    method RemoveEntry(pos: nat, now: DateTime)
      requires Valid() && pos < |entries|
      modifies this
      ensures Valid()
      ensures entries == old(entries[..pos] + entries[pos + 1..])
      ensures lastModifiedDateTime == now && creationDateTime == old(creationDateTime)
      ensures name == old(name) && listType == old(listType) && isPublic == old(isPublic)
    {
      SetLastModifiedDateTime(now);
      RemoveKeepsOrder(entries, pos, nextEntryId);
      entries := entries[..pos] + entries[pos + 1..];
    }

    /** `getClusterGroups(clusterTypes, size)`: nothing without cluster
        types; otherwise the clusters of the list, most used first, keeping
        the requested types, are grouped by `GroupClusters`. */
    method GetClusterGroups(clusterTypes: seq<ClusterTypeId>, listClusters: seq<Cluster>, size: nat) returns (res: seq<seq<Cluster>>)
      ensures |clusterTypes| == 0 ==> res == []
      ensures |clusterTypes| > 0 ==> res == Groups(Filter(listClusters, OfTypes(clusterTypes)), size)
    {
      if |clusterTypes| == 0 {
        return [];
      }
      res := GroupClusters(Filter(listClusters, OfTypes(clusterTypes)), size);
    }
  }

  function OfTypes(clusterTypes: seq<ClusterTypeId>): Cluster -> bool {
    (c: Cluster) => c.typeId in clusterTypes
  }

  /** Every cluster a track list reports is one of the list's clusters, of a
      requested type, in a group of at most `size`. */
  lemma ListGroupsWithin(clusterTypes: seq<ClusterTypeId>, listClusters: seq<Cluster>, size: nat, i: nat, c: Cluster)
    requires i < |Groups(Filter(listClusters, OfTypes(clusterTypes)), size)|
    requires c in Groups(Filter(listClusters, OfTypes(clusterTypes)), size)[i]
    ensures c in listClusters && c.typeId in clusterTypes
    ensures |Groups(Filter(listClusters, OfTypes(clusterTypes)), size)[i]| <= size
  {
    var q := Filter(listClusters, OfTypes(clusterTypes));
    GroupsBounded(q, size, i);
    GroupsWithin(q, size, i, c);
  }
}
