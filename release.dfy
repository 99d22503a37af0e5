/** The decision rules of `Database::Release` (Release.cpp) that sit on top
    of query results: the truncated name a release is created and searched
    with, the single distinct value a release reports for its tracks' dates
    and copyrights, the mean bitrate and the various-artists test. Each query
    result is an input sequence; the bucketing of `getClusterGroups` is in
    `ClusterGroups`. */
module Releases {
  import opened Wrappers
  import opened SeqUtils

  type ArtistId = nat

  datatype Date = Date(year: int, month: nat, day: nat)

  /** A stored release row: its (truncated) name and its MusicBrainz id, the
      empty string when it has none. */
  datatype ReleaseRow = ReleaseRow(name: string, mbid: string)

  /** `std::string(name, 0, maxNameLength)`: at most the first
      `maxNameLength` bytes. A name is its sequence of bytes, one `char` per
      byte, so a cut may fall inside a multibyte UTF-8 character. */
  function TruncateName(name: string, maxNameLength: nat): (r: string)
    ensures |r| <= maxNameLength && r <= name
    ensures |r| == if |name| <= maxNameLength then |name| else maxNameLength
    ensures |name| <= maxNameLength ==> r == name
  {
    if |name| <= maxNameLength then name else name[..maxNameLength]
  }

  /** Truncating twice is truncating once. */
  lemma TruncateNameIdempotent(name: string, maxNameLength: nat)
    ensures TruncateName(TruncateName(name, maxNameLength), maxNameLength) == TruncateName(name, maxNameLength)
  {
  }

  /** The constructor: the name is stored truncated, a missing MusicBrainz id
      as the empty string. */
  function NewRelease(name: string, mbid: Option<string>, maxNameLength: nat): (r: ReleaseRow)
    ensures |r.name| <= maxNameLength && r.name <= name
    ensures |name| <= maxNameLength ==> r.name == name
    ensures mbid.Some? ==> r.mbid == mbid.value
    ensures mbid.None? ==> r.mbid == ""
  {
    ReleaseRow(TruncateName(name, maxNameLength), mbid.GetOr(""))
  }

  /** `find(name)`: the stored releases whose name equals the truncated
      `name`, in table order. */
  function FindByName(rows: seq<ReleaseRow>, name: string, maxNameLength: nat): (r: seq<ReleaseRow>)
    ensures forall x :: x in r <==> x in rows && x.name == TruncateName(name, maxNameLength)
  {
    Filter(rows, (x: ReleaseRow) => x.name == TruncateName(name, maxNameLength))
  }

  /** A release created with any name, however long, is found again by that
      name. */
  lemma CreatedReleaseIsFound(rows: seq<ReleaseRow>, name: string, mbid: Option<string>, maxNameLength: nat)
    ensures NewRelease(name, mbid, maxNameLength) in FindByName(rows + [NewRelease(name, mbid, maxNameLength)], name, maxNameLength)
  {
  }

  /** Two names that agree on their first `maxNameLength` bytes find the
      same releases. */
  lemma {:induction false} FindByNameSharedPrefix(rows: seq<ReleaseRow>, a: string, b: string, maxNameLength: nat)
    requires |a| >= maxNameLength && |b| >= maxNameLength && a[..maxNameLength] == b[..maxNameLength]
    ensures FindByName(rows, a, maxNameLength) == FindByName(rows, b, maxNameLength)
  {
    assert TruncateName(a, maxNameLength) == TruncateName(b, maxNameLength);
  }

  /** `getReleaseDate`: the dates of the release's tracks grouped by value;
      one group gives that date, none or several give an invalid date. */
  function ReleaseDate(trackDates: seq<Date>): (r: Option<Date>)
    ensures r.Some? ==> r.value in trackDates
  {
    var dates := Distinct(trackDates);
    if |dates| == 0 || |dates| > 1 then None else Some(dates[0])
  }

  /** The release has a date exactly when its tracks share one. */
  lemma ReleaseDateSingle(trackDates: seq<Date>, d: Date)
    ensures ReleaseDate(trackDates) == Some(d) <==> |trackDates| > 0 && forall x :: x in trackDates ==> x == d
  {
    DistinctSingleton(trackDates, d);
  }

  /** Two tracks with different dates leave the release without one. */
  lemma ReleaseDateConflict(trackDates: seq<Date>, i: nat, j: nat)
    requires i < |trackDates| && j < |trackDates| && trackDates[i] != trackDates[j]
    ensures ReleaseDate(trackDates) == None
  {
    DistinctMoreThanOne(trackDates);
  }

  /** `getCopyright` and `getCopyrightURL`: the single distinct non-empty
      value among the release's tracks, if there is one. */
  function SingleNonEmpty(values: seq<string>): (r: Option<string>)
    ensures r.Some? ==> r.value != "" && r.value in values
  {
    var distinct := Distinct(values);
    if |distinct| == 0 || |distinct| > 1 || distinct[0] == "" then None else Some(distinct[0])
  }

  /** A copyright is reported exactly when every track carries the same
      non-empty one. */
  lemma SingleNonEmptyIff(values: seq<string>, v: string)
    ensures SingleNonEmpty(values) == Some(v) <==> v != "" && |values| > 0 && forall x :: x in values ==> x == v
  {
    DistinctSingleton(values, v);
  }

  /** Tracks disagreeing on their copyright leave the release without one. */
  lemma SingleNonEmptyConflict(values: seq<string>, i: nat, j: nat)
    requires i < |values| && j < |values| && values[i] != values[j]
    ensures SingleNonEmpty(values) == None
  {
    DistinctMoreThanOne(values);
  }

  function Sum(s: seq<nat>): nat {
    if |s| == 0 then 0 else Sum(s[..|s| - 1]) + s[|s| - 1]
  }

  function IsPositive(b: nat): bool { b > 0 }

  /** `getMeanBitrate`: the average of the positive bitrates of the
      release's tracks, read back as an integer, or 0 when there are none. */
  function MeanBitrate(bitrates: seq<nat>): (r: nat)
    ensures r == 0 <==> forall b :: b in bitrates ==> b == 0
  {
    var counted := Filter(bitrates, IsPositive);
    if |counted| == 0 then 0
    else
      SumBounds(counted, 1, 0);
      Sum(counted) / |counted|
  }

  /** A sum of `|s|` values, each at least `lo`, is at least `|s| * lo`; if
      each is at most `hi` it is at most `|s| * hi`. */
  lemma SumBounds(s: seq<nat>, lo: nat, hi: nat)
    requires forall x :: x in s ==> lo <= x
    ensures |s| * lo <= Sum(s)
    ensures (forall x :: x in s ==> x <= hi) ==> Sum(s) <= |s| * hi
  {
    SumLowerBound(s, lo);
    if forall x :: x in s ==> x <= hi {
      SumUpperBound(s, hi);
    }
  }

  lemma {:induction false} SumLowerBound(s: seq<nat>, lo: nat)
    requires forall x :: x in s ==> lo <= x
    ensures |s| * lo <= Sum(s)
  {
    if |s| > 0 {
      var init := s[..|s| - 1];
      assert forall x :: x in init ==> x in s;
      assert s[|s| - 1] in s;
      SumLowerBound(init, lo);
      MulSucc(|init|, lo);
    }
  }

  lemma {:induction false} SumUpperBound(s: seq<nat>, hi: nat)
    requires forall x :: x in s ==> x <= hi
    ensures Sum(s) <= |s| * hi
  {
    if |s| > 0 {
      var init := s[..|s| - 1];
      assert forall x :: x in init ==> x in s;
      assert s[|s| - 1] in s;
      SumUpperBound(init, hi);
      MulSucc(|init|, hi);
    }
  }

  lemma MulSucc(n: nat, k: nat)
    ensures (n + 1) * k == n * k + k
  {
  }

  /** The mean lies between the least and the greatest counted bitrate. */
  lemma MeanBitrateBounds(bitrates: seq<nat>, lo: nat, hi: nat)
    requires 0 < lo
    requires exists b :: b in bitrates && b > 0
    requires forall b :: b in bitrates && b > 0 ==> lo <= b <= hi
    ensures lo <= MeanBitrate(bitrates) <= hi
  {
    var counted := Filter(bitrates, IsPositive);
    var b :| b in bitrates && b > 0;
    assert b in counted;
    SumBounds(counted, lo, hi);
    var n := |counted|;
    assert n * lo <= Sum(counted) <= n * hi;
    assert lo <= Sum(counted) / n by {
      DivLowerBound(Sum(counted), n, lo);
    }
    assert Sum(counted) / n <= hi by {
      DivUpperBound(Sum(counted), n, hi);
    }
  }

  lemma DivLowerBound(s: nat, n: nat, lo: nat)
    requires 0 < n && n * lo <= s
    ensures lo <= s / n
  {
    var q, r := s / n, s % n;
    assert s == n * q + r && r < n;
    assert n * (q + 1) == n * q + n;
    MulCancelLess(n, lo, q + 1);
  }

  lemma DivUpperBound(s: nat, n: nat, hi: nat)
    requires 0 < n && s <= n * hi
    ensures s / n <= hi
  {
    var q, r := s / n, s % n;
    assert s == n * q + r;
    assert n * (hi + 1) == n * hi + n;
    MulCancelLess(n, q, hi + 1);
  }

  lemma {:induction false} MulCancelLess(n: nat, a: nat, b: nat)
    requires 0 < n && n * a < n * b
    ensures a < b
  {
    if a > 0 {
      assert n * (a - 1) == n * a - n;
      assert b > 0;
      assert n * (b - 1) == n * b - n;
      MulCancelLess(n, a - 1, b - 1);
    }
  }

  /** A track with bitrate 0 does not move the mean. */
  lemma MeanBitrateIgnoresZero(bitrates: seq<nat>)
    ensures MeanBitrate(bitrates + [0]) == MeanBitrate(bitrates)
  {
    var s := bitrates + [0];
    assert s[..|s| - 1] == bitrates;
    assert Filter(s, IsPositive) == Filter(bitrates, IsPositive);
  }

  /** No track, one track at 128, a second one at 256, then a third one at 0:
      the mean reads 0, 128, 192 and 192. */
  lemma MeanBitrateExamples()
    ensures MeanBitrate([]) == 0
    ensures MeanBitrate([128]) == 128
    ensures MeanBitrate([128, 256]) == 192
  {
    var none: seq<nat> := [];
    assert MeanBitrate(none) == 0;
    assert MeanBitrate([128]) == 128 by {
      MeanBitrateOfOne(128);
    }
    assert MeanBitrate([128, 256]) == 192 by {
      MeanBitrateOfTwo(128, 256);
    }
  }

  /** One track with a bitrate: the mean is that bitrate. */
  lemma MeanBitrateOfOne(b: nat)
    requires b > 0
    ensures MeanBitrate([b]) == b
  {
    var one := [b];
    assert one[..0] == [];
    assert Filter(one, IsPositive) == one;
    assert Sum(one) == b;
  }

  /** Two tracks with bitrates: the mean is their integer average. */
  lemma MeanBitrateOfTwo(a: nat, b: nat)
    requires a > 0 && b > 0
    ensures MeanBitrate([a, b]) == (a + b) / 2
  {
    var two := [a, b];
    assert two[..1] == [a];
    assert [a][..0] == [];
    assert Filter([a], IsPositive) == [a];
    assert Filter(two, IsPositive) == two;
    assert Sum([a]) == a;
    assert Sum(two) == a + b;
  }

  /** `hasVariousArtists`: more than one distinct artist among the
      release's tracks. */
  function HasVariousArtists(trackArtists: seq<ArtistId>): (r: bool)
    ensures r ==> |trackArtists| > 1
  {
    |Distinct(trackArtists)| > 1
  }

  /** Various artists exactly when two tracks name different artists. */
  lemma HasVariousArtistsIff(trackArtists: seq<ArtistId>)
    ensures HasVariousArtists(trackArtists) <==> exists i, j :: 0 <= i < |trackArtists| && 0 <= j < |trackArtists| && trackArtists[i] != trackArtists[j]
  {
    DistinctMoreThanOne(trackArtists);
  }
}
