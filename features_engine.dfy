/** The features engine of the recommendation service
    (FeaturesEngine.cpp): it trains a self-organising map on the audio
    features of the library's tracks, indexes tracks, releases and artists by
    the grid cells they land in, and answers similarity queries from that
    index.

    The SOM library, the track-features store and the database are outside
    this model: what the engine obtains from them is passed in (`Som`,
    `Library`). The cancellation flag is set by `RequestCancelLoad` between
    calls; a request made by another thread while a load runs is not
    modelled. */
module Recommendation {
  import opened Wrappers
  import opened SeqUtils
  import opened FeatureVectors
  import opened EngineIndex

  /** `SOM::Network` as the engine uses it: its grid size and input dimension,
      the data weights the engine sets, and reference vectors that only the
      SOM library reads. */
  datatype Network = Network(width: nat, height: nat, dimensions: nat, dataWeights: seq<SlotWeight>, refVectors: seq<InputVector>)

  /** The SOM library calls of the engine, as functions of their inputs:
      `normalize(all, x)` is `x` normalised with the factors computed over
      `all`; `gridSide(n)` is the integer square root of `n` over the samples
      per neuron; `train` gives the reference vectors after training;
      `closest` is `getClosestRefVectorPosition`; `median` is
      `computeRefVectorsDistanceMedian`. */
  datatype Som = Som(
    normalize: (seq<InputVector>, InputVector) -> InputVector,
    gridSide: nat -> nat,
    train: (Network, seq<InputVector>, nat) -> seq<InputVector>,
    closest: (Network, InputVector) -> Position,
    median: Network -> real)

  /** `getSimilarObjects(ids, matrix, positions, maxCount)`. */
  type SimilarObjects = (seq<nat>, Matrix, PositionsMap, nat) -> seq<nat>

  /** The order in which an `unordered_map` of track positions yields its
      tracks. */
  type KeyOrder = PositionsMap -> seq<TrackId>

  ghost predicate IsKeyOrder(keyOrder: KeyOrder) {
    forall tp :: NoDup(keyOrder(tp)) && forall t :: t in keyOrder(tp) <==> t in tp
  }

  /** What the engine reads from the database and the features store:
      the tracks that have features, the feature values of a track (none when
      it has none), the tracks that exist with their release and artist links,
      and the releases and artists that exist. */
  datatype Library = Library(
    tracksWithFeatures: seq<TrackId>,
    featureValues: TrackId -> Option<FeatureValuesMap>,
    catalog: Catalog,
    releases: set<ReleaseId>,
    artists: set<ArtistId>)

  datatype TrainSettings = TrainSettings(featureSettingsMap: FeatureSettingsMap, iterationCount: nat)

  /** The five features the engine trains on by default, each of weight 1. */
  function DefaultTrainFeatureSettings(): (s: FeatureSettingsMap)
    ensures NoDup(SettingNames(s))
    ensures |s| == 5 && forall i :: 0 <= i < |s| ==> s[i].weight == 1.0
  {
    [ FeatureSetting("lowlevel.spectral_energyband_high.mean", 1.0),
      FeatureSetting("lowlevel.spectral_rolloff.median", 1.0),
      FeatureSetting("lowlevel.spectral_contrast_valleys.var", 1.0),
      FeatureSetting("lowlevel.erbbands.mean", 1.0),
      FeatureSetting("lowlevel.gfcc.mean", 1.0) ]
  }

  /** `FeaturesEngineCache`: a trained network and the positions of the
      tracks on it. */
  datatype FeaturesEngineCache = FeaturesEngineCache(network: Network, trackPositions: PositionsMap)

  /* ---------------- training ---------------- */

  function NameSet(settings: FeatureSettingsMap): set<FeatureName> {
    set s | s in settings :: s.name
  }

  /** The features store returns, for the requested names, a map whose keys
      are among them. */
  ghost predicate FeaturesWithin(featureValues: TrackId -> Option<FeatureValuesMap>, names: set<FeatureName>) {
    forall t :: featureValues(t).Some? ==>
      NoDup(ValueNames(featureValues(t).value)) && forall n :: n in ValueNames(featureValues(t).value) ==> n in names
  }

  /** Every feature map fits a vector of `nbDimensions` slots. */
  ghost predicate FeaturesFit(featureValues: TrackId -> Option<FeatureValuesMap>, defs: FeatureDefs, nbDimensions: nat) {
    forall t :: featureValues(t).Some? ==> SeqDims(ValueNames(featureValues(t).value), defs) <= nbDimensions
  }

  lemma FeaturesWithinFit(featureValues: TrackId -> Option<FeatureValuesMap>, names: set<FeatureName>, defs: FeatureDefs)
    requires FeaturesWithin(featureValues, names)
    ensures FeaturesFit(featureValues, defs, SetDims(names, defs))
  {
    forall t | featureValues(t).Some?
      ensures SeqDims(ValueNames(featureValues(t).value), defs) <= SetDims(names, defs)
    {
      var vn := ValueNames(featureValues(t).value);
      SeqDimsIsSetDims(vn, defs);
      SetDimsSubset((set n | n in vn), names, defs);
    }
  }

  /** A track yields a sample when it has features and each of them has its
      declared number of values. */
  predicate Convertible(values: Option<FeatureValuesMap>, defs: FeatureDefs) {
    values.Some? && DimensionsMatch(values.value, defs)
  }

  function Extractable(featureValues: TrackId -> Option<FeatureValuesMap>, defs: FeatureDefs): TrackId -> bool {
    (t: TrackId) => Convertible(featureValues(t), defs)
  }

  /** The positions of the samples on the trained network, in sample order. */
  function ClosestPositions(som: Som, network: Network, samples: seq<InputVector>): seq<Position> {
    seq(|samples|, i requires 0 <= i < |samples| => som.closest(network, samples[i]))
  }

  /** `trackPositions[samplesTrackIds[i]].push_back(position)` over the
      samples. */
  function Classify(ids: seq<TrackId>, positions: seq<Position>): PositionsMap
    requires |ids| == |positions|
  {
    if |ids| == 0 then map[]
    else
      var m := Classify(ids[..|ids| - 1], positions[..|ids| - 1]);
      var t := ids[|ids| - 1];
      m[t := PositionsOf(m, t) + [positions[|ids| - 1]]]
  }

  /** The grid side: the SOM's estimate, but at least 2. */
  function GridSide(som: Som, sampleCount: nat): (side: nat)
    ensures side >= 2
    ensures som.gridSide(sampleCount) >= 2 ==> side == som.gridSide(sampleCount)
    ensures som.gridSide(sampleCount) < 2 ==> side == 2
  {
    var side := som.gridSide(sampleCount);
    if side < 2 then 2 else side
  }

  /** The input vectors of tracks that all yield one, in the same order. */
  function Vectors(ids: seq<TrackId>, featureValues: TrackId -> Option<FeatureValuesMap>, defs: FeatureDefs, nbDimensions: nat): (r: seq<InputVector>)
    requires FeaturesFit(featureValues, defs, nbDimensions)
    requires forall t :: t in ids ==> Convertible(featureValues(t), defs)
    ensures |r| == |ids|
    ensures forall i :: 0 <= i < |r| ==> |r[i]| == nbDimensions
  {
    assert forall i :: 0 <= i < |ids| ==> Convertible(featureValues(ids[i]), defs);
    seq(|ids|, i requires 0 <= i < |ids| && Convertible(featureValues(ids[i]), defs) =>
      VectorOf(featureValues(ids[i]).value, defs, nbDimensions))
  }

  /** The input vector of a feature map whose dimensions all match. */
  function VectorOf(m: FeatureValuesMap, defs: FeatureDefs, nbDimensions: nat): (r: InputVector)
    requires DimensionsMatch(m, defs)
    requires SeqDims(ValueNames(m), defs) <= nbDimensions
    ensures Some(r) == InputVectorOf(m, defs, nbDimensions)
  {
    InputVectorOf(m, defs, nbDimensions).value
  }

  /** Every sample normalised with the factors computed over all of them. */
  function Normalized(som: Som, raw: seq<InputVector>): (r: seq<InputVector>)
    ensures |r| == |raw|
  {
    seq(|raw|, i requires 0 <= i < |raw| => som.normalize(raw, raw[i]))
  }

  /** What `loadFromTraining` hands to the index: the trained network and the
      position of each sample's track, or nothing when no track yields a
      sample. */
  ghost function Training(settings: TrainSettings, lib: Library, defs: FeatureDefs, som: Som): Option<(Network, PositionsMap)>
    requires FeaturesWithin(lib.featureValues, NameSet(settings.featureSettingsMap))
  {
    var names := NameSet(settings.featureSettingsMap);
    var nbDimensions := SetDims(names, defs);
    FeaturesWithinFit(lib.featureValues, names, defs);
    var ids := Filter(lib.tracksWithFeatures, Extractable(lib.featureValues, defs));
    if |ids| == 0 then None
    else
      var samples := Normalized(som, Vectors(ids, lib.featureValues, defs, nbDimensions));
      var side := GridSide(som, |samples|);
      var initial := Network(side, side, nbDimensions, WeightLayout(settings.featureSettingsMap, defs), []);
      var trained := initial.(refVectors := som.train(initial, samples, settings.iterationCount));
      Some((trained, Classify(ids, ClosestPositions(som, trained, samples))))
  }

  /* ---------------- queries ---------------- */

  /** Whether an id is among those that still exist in the database. */
  function InSet(existing: set<nat>): nat -> bool {
    (x: nat) => x in existing
  }

  /** `erase(remove_if(...))` with the existence test: the ids that still
      exist, in their order. */
  method KeepExisting(ids: seq<nat>, existing: set<nat>) returns (r: seq<nat>)
    ensures r == Filter(ids, InSet(existing))
  {
    r := [];
    for k := 0 to |ids|
      invariant r == Filter(ids[..k], InSet(existing))
    {
      assert ids[..k + 1][..k] == ids[..k];
      if ids[k] in existing {
        r := r + [ids[k]];
      }
    }
    assert ids[..|ids|] == ids;
  }

  /** The similar artists for one link type: none when the engine has no
      matrix for that link type. */
  function SimilarForLinkType(artist: ArtistId, linkType: LinkType, artistMatrix: map<LinkType, Matrix>,
                              artistPositions: PositionsMap, similar: SimilarObjects, maxCount: nat): seq<ArtistId>
  {
    if linkType in artistMatrix then similar([artist], artistMatrix[linkType], artistPositions, maxCount) else []
  }

  /** The union of the similar artists over the requested link types. */
  function ArtistCandidates(artist: ArtistId, linkTypes: set<LinkType>, artistMatrix: map<LinkType, Matrix>,
                            artistPositions: PositionsMap, similar: SimilarObjects, maxCount: nat): set<ArtistId>
  {
    set lt, a | lt in linkTypes && a in SimilarForLinkType(artist, lt, artistMatrix, artistPositions, similar, maxCount) :: a
  }

  lemma ArtistCandidatesStep(artist: ArtistId, done: set<LinkType>, lt: LinkType, artistMatrix: map<LinkType, Matrix>,
                             artistPositions: PositionsMap, similar: SimilarObjects, maxCount: nat)
    ensures ArtistCandidates(artist, done + {lt}, artistMatrix, artistPositions, similar, maxCount)
         == ArtistCandidates(artist, done, artistMatrix, artistPositions, similar, maxCount)
          + Elems(SimilarForLinkType(artist, lt, artistMatrix, artistPositions, similar, maxCount))
  {
  }

  /** The loop over the requested link types, adding each one's similar
      artists to the union. */
  method CollectArtistCandidates(artist: ArtistId, linkTypes: set<LinkType>, artistMatrix: map<LinkType, Matrix>,
                                 artistPositions: PositionsMap, similar: SimilarObjects, maxCount: nat)
    returns (union: set<ArtistId>)
    ensures union == ArtistCandidates(artist, linkTypes, artistMatrix, artistPositions, similar, maxCount)
  {
    union := {};
    var rest := linkTypes;
    while rest != {}
      invariant rest <= linkTypes
      invariant union == ArtistCandidates(artist, linkTypes - rest, artistMatrix, artistPositions, similar, maxCount)
      decreases rest
    {
      var lt :| lt in rest;
      var found := SimilarForLinkType(artist, lt, artistMatrix, artistPositions, similar, maxCount);
      ArtistCandidatesStep(artist, linkTypes - rest, lt, artistMatrix, artistPositions, similar, maxCount);
      assert linkTypes - (rest - {lt}) == (linkTypes - rest) + {lt};
      union := union + Elems(found);
      rest := rest - {lt};
    }
    assert linkTypes - rest == linkTypes;
  }

  /** The set's elements, each once, in some order. */
  method SetToSeq(s: set<nat>) returns (r: seq<nat>)
    ensures NoDup(r)
    ensures forall a :: a in r <==> a in s
  {
    r := [];
    var left := s;
    while left != {}
      invariant left <= s
      invariant NoDup(r)
      invariant forall a :: a in r <==> a in s && a !in left
      decreases left
    {
      var a :| a in left;
      r := r + [a];
      left := left - {a};
    }
  }

  /** `while (size > maxCount) erase(pickRandom(...))`: removing any element
      until at most `maxCount` remain. */
  method TrimToCount(s: seq<nat>, maxCount: nat) returns (r: seq<nat>)
    requires NoDup(s)
    ensures NoDup(r)
    ensures forall a :: a in r ==> a in s
    ensures |r| == Min(maxCount, |s|)
    ensures |s| <= maxCount ==> r == s
  {
    r := s;
    while |r| > maxCount
      invariant NoDup(r)
      invariant forall a :: a in r ==> a in s
      invariant |r| == |s| || |r| >= maxCount
      invariant |s| <= maxCount ==> r == s
      decreases |r|
    {
      var i :| 0 <= i < |r|;
      RemoveAt(r, i);
      r := r[..i] + r[i + 1..];
    }
  }

  function Min(a: nat, b: nat): nat {
    if a < b then a else b
  }

  /* ---------------- the engine's state ---------------- */

  datatype EngineState = EngineState(index: Index, network: Option<Network>, median: real, cancelled: bool)

  function FreshState(): EngineState {
    EngineState(EmptyIndex(), None, 0.0, false)
  }

  /** `load(network, trackPositions)`: the median distance is recomputed and
      the track and release matrices are reset to the network's size; then
      the index loop runs unless the flag is set, in which case it returns at
      its first poll, before the network is replaced. */
  ghost function LoadNetworkSpec(s: EngineState, network: Network, tp: PositionsMap, keyOrder: KeyOrder, catalog: Catalog, som: Som): EngineState {
    var withMedian := s.(median := som.median(network));
    if s.cancelled && |keyOrder(tp)| > 0
    then withMedian.(index := ResetMatrices(s.index, network.width, network.height))
    else withMedian.(index := LoadedIndex(s.index, network.width, network.height, tp, keyOrder(tp), catalog), network := Some(network))
  }

  /** `loadFromTraining`: with the flag set the extraction loop returns
      before any change; with no sample there is nothing to classify;
      otherwise the trained network and positions are loaded. */
  ghost function TrainingSpec(s: EngineState, settings: TrainSettings, lib: Library, defs: FeatureDefs, som: Som, keyOrder: KeyOrder): EngineState
    requires FeaturesWithin(lib.featureValues, NameSet(settings.featureSettingsMap))
  {
    if s.cancelled then s
    else
      match Training(settings, lib, defs, som)
      case None => s
      case Some((network, tp)) => LoadNetworkSpec(s, network, tp, keyOrder, lib.catalog, som)
  }

  /** The guard `load` puts before `toCache().write()`, as written: only the
      flag is tested. */
  predicate AsWrittenCacheWriteGuard(s: EngineState) {
    !s.cancelled
  }

  /** The guard as it is evidently meant: the engine is not cancelled and
      holds a network for `toCache` to save. */
  predicate CacheWriteGuard(s: EngineState) {
    !s.cancelled && s.network.Some?
  }

  /** The settings `load` trains with: the default features, the other
      settings at their defaults. */
  function LoadTrainSettings(iterationCount: nat): TrainSettings {
    TrainSettings(DefaultTrainFeatureSettings(), iterationCount)
  }

  /** `load(forceReload)`, with the cache write guarded as intended: a
      readable cache is loaded unless a reload is forced (which invalidates
      it); otherwise the engine trains and, if it then holds a network and is
      not cancelled, saves that network with its track positions. The second
      component is the stored cache afterwards. */
  ghost function LoadSpec(s: EngineState, forceReload: bool, stored: Option<FeaturesEngineCache>, iterationCount: nat,
                          lib: Library, defs: FeatureDefs, som: Som, keyOrder: KeyOrder): (EngineState, Option<FeaturesEngineCache>)
    requires FeaturesWithin(lib.featureValues, NameSet(DefaultTrainFeatureSettings()))
  {
    if !forceReload && stored.Some? then
      (LoadNetworkSpec(s, stored.value.network, stored.value.trackPositions, keyOrder, lib.catalog, som), stored)
    else
      var trained := TrainingSpec(s, LoadTrainSettings(iterationCount), lib, defs, som, keyOrder);
      (trained, if CacheWriteGuard(trained) then Some(FeaturesEngineCache(trained.network.value, trained.index.trackPositions)) else None)
  }

  /* ---------------- the engine ---------------- */

  /** The file the engine's cache lives in: `read` gives its contents when
      there is a readable cache. */
  class CacheStore {
    var contents: Option<FeaturesEngineCache>

    constructor(contents: Option<FeaturesEngineCache>)
      ensures this.contents == contents
    {
      this.contents := contents;
    }

    /** `FeaturesEngineCache::invalidate`. */
    method Invalidate()
      modifies this
      ensures contents == None
    {
      contents := None;
    }

    /** `FeaturesEngineCache::write`. */
    method Write(cache: FeaturesEngineCache)
      modifies this
      ensures contents == Some(cache)
    {
      contents := Some(cache);
    }
  }

  class FeaturesEngine {
    var trackPositions: PositionsMap
    var trackMatrix: Matrix
    var releasePositions: PositionsMap
    var releaseMatrix: Matrix
    var artistPositions: PositionsMap
    var artistMatrix: map<LinkType, Matrix>
    var network: Option<Network>
    var networkRefVectorsDistanceMedian: real
    var loadCancelled: bool

    function IndexState(): Index
      reads this
    {
      Index(trackPositions, trackMatrix, releasePositions, releaseMatrix, artistPositions, artistMatrix)
    }

    function State(): EngineState
      reads this
    {
      EngineState(IndexState(), network, networkRefVectorsDistanceMedian, loadCancelled)
    }

    ghost predicate Valid()
      reads this
    {
      DuplicateFree(IndexState())
    }

    constructor()
      ensures State() == FreshState() && Valid()
    {
      trackPositions := map[];
      trackMatrix := EmptyMatrix(0, 0);
      releasePositions := map[];
      releaseMatrix := EmptyMatrix(0, 0);
      artistPositions := map[];
      artistMatrix := map[];
      network := None;
      networkRefVectorsDistanceMedian := 0.0;
      loadCancelled := false;
    }

    /** `requestCancelLoad`: sets the flag; nothing ever clears it. */
    method RequestCancelLoad()
      modifies this
      ensures State() == old(State()).(cancelled := true)
    {
      loadCancelled := true;
    }

    /** `toCache`: dereferences the network, so the engine must hold one. */
    function ToCache(): (cache: FeaturesEngineCache)
      reads this
      requires network.Some?
      ensures cache.network == network.value && cache.trackPositions == trackPositions
    {
      FeaturesEngineCache(network.value, trackPositions)
    }

    /** One position of one track: the track and its release are recorded
        there, then its artists. */
    method IndexPosition(t: TrackId, info: TrackInfo, p: Position, width: nat, height: nat)
      modifies this
      ensures State() == old(State()).(index := AddPosition(old(IndexState()), t, info, p, width, height))
    {
      IndexTrackAndRelease(t, info, p);
      IndexArtistLinks(info.artistLinks, p, width, height);
    }

    /** The track, and its release when it has one, at one position. */
    method IndexTrackAndRelease(t: TrackId, info: TrackInfo, p: Position)
      modifies this
      ensures State() == old(State()).(index := AddTrackAndRelease(old(IndexState()), t, info, p))
    {
      trackPositions := Push(trackPositions, t, p);
      trackMatrix := trackMatrix.Add(p, t);
      if info.release.Some? {
        var releaseId := info.release.value;
        releasePositions := Push(releasePositions, releaseId, p);
        releaseMatrix := releaseMatrix.Add(p, releaseId);
      }
    }

    /** The artist-link loop of one position. */
    method IndexArtistLinks(links: seq<ArtistLink>, p: Position, width: nat, height: nat)
      modifies this
      ensures State() == old(State()).(index := AddArtistLinks(old(IndexState()), links, p, width, height))
    {
      ghost var start := IndexState();
      for i := 0 to |links|
        invariant IndexState() == AddArtistLinks(start, links[..i], p, width, height)
        invariant network == old(network) && networkRefVectorsDistanceMedian == old(networkRefVectorsDistanceMedian)
        invariant loadCancelled == old(loadCancelled)
      {
        assert links[..i + 1][..i] == links[..i];
        IndexArtistLink(links[i], p, width, height);
      }
      assert links[..|links|] == links;
    }

    /** One artist link: the artist is recorded in the shared artist
        positions and in the matrix of its link type, created with the
        network's size when the link type is new. */
    method IndexArtistLink(link: ArtistLink, p: Position, width: nat, height: nat)
      modifies this
      ensures State() == old(State()).(index := AddArtistLink(old(IndexState()), link, p, width, height))
    {
      artistPositions := Push(artistPositions, link.artist, p);
      if link.linkType !in artistMatrix {
        artistMatrix := artistMatrix[link.linkType := EmptyMatrix(width, height)];
      }
      var matrix := artistMatrix[link.linkType];
      artistMatrix := artistMatrix[link.linkType := matrix.Add(p, link.artist)];
    }

    /** The position loop of one track. */
    method IndexTrack(t: TrackId, info: TrackInfo, ps: seq<Position>, width: nat, height: nat)
      modifies this
      ensures State() == old(State()).(index := AddTrack(old(IndexState()), t, info, ps, width, height))
    {
      for j := 0 to |ps|
        invariant State() == old(State()).(index := AddTrack(old(IndexState()), t, info, ps[..j], width, height))
      {
        IndexPosition(t, info, ps[j], width, height);
        assert ps[..j + 1][..j] == ps[..j];
      }
      assert ps[..|ps|] == ps;
    }

    /** `load(network, trackPositions)`. */
    method LoadNetwork(net: Network, tp: PositionsMap, keyOrder: KeyOrder, catalog: Catalog, som: Som)
      requires Valid()
      modifies this
      ensures Valid()
      ensures State() == LoadNetworkSpec(old(State()), net, tp, keyOrder, catalog, som)
    {
      networkRefVectorsDistanceMedian := som.median(net);
      var width := net.width;
      var height := net.height;
      releaseMatrix := EmptyMatrix(width, height);
      trackMatrix := EmptyMatrix(width, height);
      assert IndexState() == ResetMatrices(old(IndexState()), width, height);
      LoadedShapes(old(IndexState()), width, height, tp, keyOrder(tp), catalog);
      var cancelled := IndexTracksLoop(keyOrder(tp), tp, catalog, width, height);
      if cancelled {
        return;
      }
      network := Some(net);
    }

    /** The loop of `load` over the positions map, in `order`: the flag is
        polled before each track, and a track that no longer exists is
        skipped. */
    method IndexTracksLoop(order: seq<TrackId>, tp: PositionsMap, catalog: Catalog, width: nat, height: nat)
      returns (cancelled: bool)
      modifies this
      ensures cancelled <==> loadCancelled && |order| > 0
      ensures cancelled ==> State() == old(State())
      ensures !cancelled ==> State() == old(State()).(index := IndexTracks(old(IndexState()), tp, order, catalog, width, height))
    {
      ghost var start := IndexState();
      for k := 0 to |order|
        invariant IndexState() == IndexTracks(start, tp, order[..k], catalog, width, height)
        invariant network == old(network) && loadCancelled == old(loadCancelled)
        invariant networkRefVectorsDistanceMedian == old(networkRefVectorsDistanceMedian)
        invariant loadCancelled ==> k == 0
      {
        if loadCancelled {
          return true;
        }
        var t := order[k];
        assert order[..k + 1][..k] == order[..k];
        if t in catalog {
          IndexTrack(t, catalog[t], PositionsOf(tp, t), width, height);
        }
      }
      assert order[..|order|] == order;
      return false;
    }

    /** `loadFromCache`. */
    method LoadFromCache(cache: FeaturesEngineCache, keyOrder: KeyOrder, catalog: Catalog, som: Som)
      requires Valid()
      modifies this
      ensures Valid()
      ensures State() == LoadNetworkSpec(old(State()), cache.network, cache.trackPositions, keyOrder, catalog, som)
    {
      LoadNetwork(cache.network, cache.trackPositions, keyOrder, catalog, som);
    }

    /** `getSimilarTracks`: the tracks the similarity search gives for `ids`
        on the track index, less those that no longer exist. */
    method GetSimilarTracks(ids: seq<TrackId>, maxCount: nat, similar: SimilarObjects, existing: set<TrackId>)
      returns (r: seq<TrackId>)
      ensures r == Filter(similar(ids, trackMatrix, trackPositions, maxCount), InSet(existing))
      ensures forall t :: t in r <==> t in similar(ids, trackMatrix, trackPositions, maxCount) && t in existing
    {
      var candidates := similar(ids, trackMatrix, trackPositions, maxCount);
      r := KeepExisting(candidates, existing);
    }

    /** `getSimilarTracksFromTrackList`: the similar tracks of the list's
        tracks; a list that does not exist contributes no track. */
    method GetSimilarTracksFromTrackList(trackList: Option<seq<TrackId>>, maxCount: nat, similar: SimilarObjects, existing: set<TrackId>)
      returns (r: seq<TrackId>)
      ensures r == Filter(similar(trackList.GetOr([]), trackMatrix, trackPositions, maxCount), InSet(existing))
    {
      var ids: seq<TrackId> := [];
      if trackList.Some? {
        ids := trackList.value;
      }
      r := GetSimilarTracks(ids, maxCount, similar, existing);
    }

    /** `getSimilarReleases`: the similar releases of one release on the
        release index, less those that no longer exist; the existence test is
        skipped when there is no candidate. */
    method GetSimilarReleases(release: ReleaseId, maxCount: nat, similar: SimilarObjects, existing: set<ReleaseId>)
      returns (r: seq<ReleaseId>)
      ensures r == Filter(similar([release], releaseMatrix, releasePositions, maxCount), InSet(existing))
      ensures forall x :: x in r <==> x in similar([release], releaseMatrix, releasePositions, maxCount) && x in existing
    {
      r := similar([release], releaseMatrix, releasePositions, maxCount);
      if |r| > 0 {
        r := KeepExisting(r, existing);
      }
    }

    /** `getSimilarArtists`: the union over the requested link types of the
        similar artists on that link type's matrix, less those that no longer
        exist, then cut down to `maxCount` by removing artists at random
        (any artist may be removed). */
    method GetSimilarArtists(artist: ArtistId, linkTypes: set<LinkType>, maxCount: nat, similar: SimilarObjects, existing: set<ArtistId>)
      returns (r: seq<ArtistId>)
      ensures NoDup(r)
      ensures forall a :: a in r ==> a in existing && a in ArtistCandidates(artist, linkTypes, artistMatrix, artistPositions, similar, maxCount)
      ensures |r| == Min(maxCount, |ArtistCandidates(artist, linkTypes, artistMatrix, artistPositions, similar, maxCount) * existing|)
      ensures |ArtistCandidates(artist, linkTypes, artistMatrix, artistPositions, similar, maxCount) * existing| <= maxCount ==>
                forall a :: a in ArtistCandidates(artist, linkTypes, artistMatrix, artistPositions, similar, maxCount) && a in existing ==> a in r
    {
      var union := CollectArtistCandidates(artist, linkTypes, artistMatrix, artistPositions, similar, maxCount);
      ghost var eligible := union * existing;
      var res := SetToSeq(union);
      FilterNoDup(res, InSet(existing));
      res := KeepExisting(res, existing);
      assert forall a :: a in res <==> a in eligible;
      NoDupWithin(res, eligible);
      r := TrimToCount(res, maxCount);
    }

    /** The extraction loop of `loadFromTraining`: the flag is polled before
        each track, and a track yields a sample when it has features that
        convert to an input vector. `cancelled` is the early return. */
    method ExtractSamples(trackIds: seq<TrackId>, featureValues: TrackId -> Option<FeatureValuesMap>, defs: FeatureDefs, nbDimensions: nat)
      returns (cancelled: bool, samples: seq<InputVector>, samplesTrackIds: seq<TrackId>)
      requires FeaturesFit(featureValues, defs, nbDimensions)
      ensures cancelled <==> loadCancelled && |trackIds| > 0
      ensures !cancelled ==> samplesTrackIds == Filter(trackIds, Extractable(featureValues, defs))
      ensures !cancelled ==> samples == Vectors(samplesTrackIds, featureValues, defs, nbDimensions)
    {
      samples, samplesTrackIds := [], [];
      for k := 0 to |trackIds|
        invariant !loadCancelled || k == 0
        invariant samplesTrackIds == Filter(trackIds[..k], Extractable(featureValues, defs))
        invariant samples == Vectors(samplesTrackIds, featureValues, defs, nbDimensions)
      {
        if loadCancelled {
          return true, [], [];
        }
        var t := trackIds[k];
        assert trackIds[..k + 1][..k] == trackIds[..k];
        var values := featureValues(t);
        if values.Some? {
          var inputVector := ConvertFeatureValuesMapToInputVector(values.value, defs, nbDimensions);
          if inputVector.Some? {
            VectorsSnoc(samplesTrackIds, t, featureValues, defs, nbDimensions);
            samples := samples + [inputVector.value];
            samplesTrackIds := samplesTrackIds + [t];
          }
        }
      }
      assert trackIds[..|trackIds|] == trackIds;
      cancelled := false;
    }

    /** The classification loop of `loadFromTraining`: the flag is polled
        before each sample, whose track gets the position of the reference
        vector closest to it. */
    method ClassifySamples(network: Network, samples: seq<InputVector>, ids: seq<TrackId>, som: Som)
      returns (cancelled: bool, tp: PositionsMap)
      requires |ids| == |samples|
      ensures cancelled <==> loadCancelled && |samples| > 0
      ensures !cancelled ==> tp == Classify(ids, ClosestPositions(som, network, samples))
    {
      ghost var positions := ClosestPositions(som, network, samples);
      tp := map[];
      for i := 0 to |samples|
        invariant !loadCancelled || i == 0
        invariant tp == Classify(ids[..i], positions[..i])
      {
        if loadCancelled {
          return true, map[];
        }
        var position := som.closest(network, samples[i]);
        assert ids[..i + 1][..i] == ids[..i];
        assert positions[..i + 1][..i] == positions[..i];
        tp := tp[ids[i] := PositionsOf(tp, ids[i]) + [position]];
      }
      assert ids[..|ids|] == ids;
      assert positions[..|samples|] == positions;
      cancelled := false;
    }

    /** `loadFromTraining`: the feature dimension is the sum over the
        requested features; the samples are extracted, normalised and
        trained on a square grid of side at least 2 whose data weights spread
        each feature's weight over its slots; the tracks are classified and
        the result is loaded. */
    method LoadFromTraining(settings: TrainSettings, lib: Library, defs: FeatureDefs, som: Som, keyOrder: KeyOrder)
      requires Valid()
      requires NoDup(SettingNames(settings.featureSettingsMap))
      requires FeaturesWithin(lib.featureValues, NameSet(settings.featureSettingsMap))
      modifies this
      ensures Valid()
      ensures State() == TrainingSpec(old(State()), settings, lib, defs, som, keyOrder)
    {
      var names := NameSet(settings.featureSettingsMap);
      var nbDimensions := NbDimensions(names, defs);
      FeaturesWithinFit(lib.featureValues, names, defs);
      var cancelled, raw, ids := ExtractSamples(lib.tracksWithFeatures, lib.featureValues, defs, nbDimensions);
      if cancelled {
        return;
      }
      if |raw| == 0 {
        return;
      }
      var samples := NormalizeSamples(som, raw);
      var side := GridSide(som, |samples|);
      SettingDims(settings.featureSettingsMap, defs);
      var weights := GetInputVectorWeights(settings.featureSettingsMap, defs, nbDimensions);
      var net := Network(side, side, nbDimensions, weights, []);
      net := net.(refVectors := som.train(net, samples, settings.iterationCount));
      var classifyCancelled, tp := ClassifySamples(net, samples, ids, som);
      if classifyCancelled {
        return;
      }
      LoadNetwork(net, tp, keyOrder, lib.catalog, som);
    }

    /** `load(forceReload)`, with the cache written only when the engine
        holds a network (see `AsWrittenCacheWriteGuard` for the guard as
        written). */
    method Load(forceReload: bool, store: CacheStore, iterationCount: nat, lib: Library, defs: FeatureDefs, som: Som, keyOrder: KeyOrder)
      requires Valid()
      requires FeaturesWithin(lib.featureValues, NameSet(DefaultTrainFeatureSettings()))
      modifies this, store
      ensures Valid()
      ensures (State(), store.contents) == LoadSpec(old(State()), forceReload, old(store.contents), iterationCount, lib, defs, som, keyOrder)
    {
      if forceReload {
        store.Invalidate();
      } else if store.contents.Some? {
        LoadFromCache(store.contents.value, keyOrder, lib.catalog, som);
        return;
      }
      LoadFromTraining(LoadTrainSettings(iterationCount), lib, defs, som, keyOrder);
      if !loadCancelled && network.Some? {
        store.Write(ToCache());
      }
    }
  }

  /** The normalisation loop: each sample is normalised in turn with the
      factors computed over the samples before the loop. */
  method NormalizeSamples(som: Som, samples: seq<InputVector>) returns (r: seq<InputVector>)
    ensures r == Normalized(som, samples)
  {
    r := samples;
    for i := 0 to |samples|
      invariant |r| == |samples|
      invariant forall k :: 0 <= k < i ==> r[k] == som.normalize(samples, samples[k])
    {
      r := r[i := som.normalize(samples, samples[i])];
    }
  }

  lemma VectorsSnoc(ids: seq<TrackId>, t: TrackId, featureValues: TrackId -> Option<FeatureValuesMap>, defs: FeatureDefs, nbDimensions: nat)
    requires FeaturesFit(featureValues, defs, nbDimensions)
    requires forall u :: u in ids ==> Convertible(featureValues(u), defs)
    requires Convertible(featureValues(t), defs)
    ensures Vectors(ids + [t], featureValues, defs, nbDimensions)
         == Vectors(ids, featureValues, defs, nbDimensions) + [InputVectorOf(featureValues(t).value, defs, nbDimensions).value]
  {
    var ids' := ids + [t];
    assert forall i :: 0 <= i < |ids| ==> ids'[i] == ids[i];
  }

  /** The dimension summed over the distinct setting names is the layout's
      length. */
  lemma SettingDims(s: FeatureSettingsMap, defs: FeatureDefs)
    requires NoDup(SettingNames(s))
    ensures SeqDims(SettingNames(s), defs) == SetDims(NameSet(s), defs)
  {
    SeqDimsIsSetDims(SettingNames(s), defs);
    var names := SettingNames(s);
    assert (set n | n in names) == NameSet(s) by {
      forall n | n in NameSet(s) ensures n in names {
        var x :| x in s && x.name == n;
        var i :| 0 <= i < |s| && s[i] == x;
        assert names[i] == n;
      }
    }
  }

  /* ---------------- what training and loading promise ---------------- */

  /** With distinct track ids, each classified track gets exactly the
      position of its own sample, and no other track gets any. */
  lemma {:induction false} ClassifyDistinct(ids: seq<TrackId>, positions: seq<Position>)
    requires |ids| == |positions| && NoDup(ids)
    ensures forall t :: t in Classify(ids, positions) <==> t in ids
    ensures forall i :: 0 <= i < |ids| ==> Classify(ids, positions)[ids[i]] == [positions[i]]
  {
    if |ids| > 0 {
      var n := |ids| - 1;
      var init, initPositions := ids[..n], positions[..n];
      assert NoDup(init);
      ClassifyDistinct(init, initPositions);
      assert ids[n] !in init;
      assert forall i :: 0 <= i < n ==> init[i] == ids[i] && initPositions[i] == positions[i];
      forall t | t in ids ensures t in init || t == ids[n] {
        var i :| 0 <= i < |ids| && ids[i] == t;
        if i < n { assert init[i] == t; }
      }
    }
  }

  /** Training yields nothing exactly when no track with features yields a
      sample. */
  lemma TrainingNone(settings: TrainSettings, lib: Library, defs: FeatureDefs, som: Som)
    requires FeaturesWithin(lib.featureValues, NameSet(settings.featureSettingsMap))
    ensures Training(settings, lib, defs, som).None?
        <==> forall t :: t in lib.tracksWithFeatures ==> !Convertible(lib.featureValues(t), defs)
  {
    var ids := Filter(lib.tracksWithFeatures, Extractable(lib.featureValues, defs));
    if |ids| > 0 {
      assert ids[0] in ids;
    }
    if exists t :: t in lib.tracksWithFeatures && Convertible(lib.featureValues(t), defs) {
      var t :| t in lib.tracksWithFeatures && Convertible(lib.featureValues(t), defs);
      assert t in ids;
    }
  }

  /** The trained network is a square grid of side at least 2 whose input
      dimension is the summed dimension of the requested features, with one
      data weight per dimension. */
  lemma TrainingNetwork(settings: TrainSettings, lib: Library, defs: FeatureDefs, som: Som, network: Network, tp: PositionsMap)
    requires NoDup(SettingNames(settings.featureSettingsMap))
    requires FeaturesWithin(lib.featureValues, NameSet(settings.featureSettingsMap))
    requires Training(settings, lib, defs, som) == Some((network, tp))
    ensures network.width == network.height >= 2
    ensures network.dimensions == SetDims(NameSet(settings.featureSettingsMap), defs) == |network.dataWeights|
    ensures network.dataWeights == WeightLayout(settings.featureSettingsMap, defs)
  {
    WeightLayoutLength(settings.featureSettingsMap, defs);
    SettingDims(settings.featureSettingsMap, defs);
  }

  /** With distinct track ids from the database, the positions handed to the
      index are those of the tracks that yield a sample, one position each. */
  lemma TrainingPositions(settings: TrainSettings, lib: Library, defs: FeatureDefs, som: Som, network: Network, tp: PositionsMap)
    requires NoDup(lib.tracksWithFeatures)
    requires FeaturesWithin(lib.featureValues, NameSet(settings.featureSettingsMap))
    requires Training(settings, lib, defs, som) == Some((network, tp))
    ensures forall t :: t in tp <==> t in lib.tracksWithFeatures && Convertible(lib.featureValues(t), defs)
    ensures forall t :: t in tp ==> |tp[t]| == 1
  {
    var names := NameSet(settings.featureSettingsMap);
    FeaturesWithinFit(lib.featureValues, names, defs);
    var ids := Filter(lib.tracksWithFeatures, Extractable(lib.featureValues, defs));
    FilterNoDup(lib.tracksWithFeatures, Extractable(lib.featureValues, defs));
    var samples := Normalized(som, Vectors(ids, lib.featureValues, defs, SetDims(names, defs)));
    ClassifyDistinct(ids, ClosestPositions(som, network, samples));
    forall t | t in tp ensures |tp[t]| == 1 {
      var i :| 0 <= i < |ids| && ids[i] == t;
    }
  }

  /** As written, `load` saves the cache whenever the flag is clear: after a
      training that found no sample on an engine never loaded, the guard
      holds although there is no network for `toCache` to dereference. */
  lemma AsWrittenGuardWithoutNetwork(s: EngineState, settings: TrainSettings, lib: Library, defs: FeatureDefs, som: Som, keyOrder: KeyOrder)
    requires FeaturesWithin(lib.featureValues, NameSet(settings.featureSettingsMap))
    requires !s.cancelled && s.network.None?
    requires forall t :: t in lib.tracksWithFeatures ==> !Convertible(lib.featureValues(t), defs)
    ensures AsWrittenCacheWriteGuard(TrainingSpec(s, settings, lib, defs, som, keyOrder))
    ensures TrainingSpec(s, settings, lib, defs, som, keyOrder).network.None?
    ensures !CacheWriteGuard(TrainingSpec(s, settings, lib, defs, som, keyOrder))
  {
    TrainingNone(settings, lib, defs, som);
  }

  /** With the intended guard, a training that finds samples on an engine
      not cancelled always saves the network it trained, with the engine's
      track positions. */
  lemma TrainedLoadWritesCache(s: EngineState, forceReload: bool, stored: Option<FeaturesEngineCache>, iterationCount: nat,
                               lib: Library, defs: FeatureDefs, som: Som, keyOrder: KeyOrder, t: TrackId)
    requires FeaturesWithin(lib.featureValues, NameSet(DefaultTrainFeatureSettings()))
    requires forceReload || stored.None?
    requires !s.cancelled
    requires t in lib.tracksWithFeatures && Convertible(lib.featureValues(t), defs)
    ensures Training(LoadTrainSettings(iterationCount), lib, defs, som).Some?
    ensures LoadSpec(s, forceReload, stored, iterationCount, lib, defs, som, keyOrder).1
         == Some(FeaturesEngineCache(Training(LoadTrainSettings(iterationCount), lib, defs, som).value.0,
                                     LoadSpec(s, forceReload, stored, iterationCount, lib, defs, som, keyOrder).0.index.trackPositions))
  {
    TrainingNone(LoadTrainSettings(iterationCount), lib, defs, som);
  }

  /** A load on a cancelled engine that has to train changes nothing, and a
      forced one leaves no cache behind. */
  lemma CancelledLoadChangesNothing(s: EngineState, forceReload: bool, stored: Option<FeaturesEngineCache>, iterationCount: nat,
                                    lib: Library, defs: FeatureDefs, som: Som, keyOrder: KeyOrder)
    requires FeaturesWithin(lib.featureValues, NameSet(DefaultTrainFeatureSettings()))
    requires forceReload || stored.None?
    requires s.cancelled
    ensures LoadSpec(s, forceReload, stored, iterationCount, lib, defs, som, keyOrder) == (s, None)
  {
  }

  /** A cancelled load of a non-empty cache keeps the previous network, but
      still resets the track and release matrices: they no longer match the
      network the engine keeps. */
  lemma CancelledCacheLoadKeepsNetwork(s: EngineState, cache: FeaturesEngineCache, iterationCount: nat,
                                       lib: Library, defs: FeatureDefs, som: Som, keyOrder: KeyOrder)
    requires FeaturesWithin(lib.featureValues, NameSet(DefaultTrainFeatureSettings()))
    requires s.cancelled && |keyOrder(cache.trackPositions)| > 0
    ensures LoadSpec(s, false, Some(cache), iterationCount, lib, defs, som, keyOrder).0.network == s.network
    ensures LoadSpec(s, false, Some(cache), iterationCount, lib, defs, som, keyOrder).0.index.trackMatrix == EmptyMatrix(cache.network.width, cache.network.height)
    ensures LoadSpec(s, false, Some(cache), iterationCount, lib, defs, som, keyOrder).0.index.trackPositions == s.index.trackPositions
  {
  }

  /** An engine never loaded that reads a cache whose tracks all still exist
      holds afterwards the cached network and exactly the cached positions. */
  lemma CacheReloadRestoresPositions(cache: FeaturesEngineCache, keyOrder: KeyOrder, catalog: Catalog, som: Som)
    requires IsKeyOrder(keyOrder)
    requires forall t :: t in cache.trackPositions ==>
      t in catalog && |cache.trackPositions[t]| > 0 && NoDup(cache.trackPositions[t])
    ensures LoadNetworkSpec(FreshState(), cache.network, cache.trackPositions, keyOrder, catalog, som).network == Some(cache.network)
    ensures LoadNetworkSpec(FreshState(), cache.network, cache.trackPositions, keyOrder, catalog, som).index.trackPositions == cache.trackPositions
  {
    var order := keyOrder(cache.trackPositions);
    ReloadRestoresPositions(cache.trackPositions, order, catalog, cache.network.width, cache.network.height);
  }
}
