# LMS core — a Dafny model

LMS is a self-hosted music streaming server. This project models six parts of it and proves properties of them.

- **Recommendation features engine** (`Recommendation`, `FeatureVectors`, `EngineIndex`):
  - Turns each track's acoustic feature values into fixed-width input vectors, and computes the per-dimension weights.
  - Trains a self-organising map (SOM) on those vectors and classifies every track onto a grid position.
  - Indexes tracks, releases and artists by position, into per-object position lists and per-cell object lists.
  - Answers "similar tracks / releases / artists" queries.
  - Saves a trained network and its track positions to a cache store, and loads it back.
- **Release** (`Releases`):
  - creating a release and looking it up by its truncated name;
  - the release date, copyright and copyright URL, which are reported only when all tracks agree;
  - the mean bitrate;
  - the "various artists" test.
- **Release and track-list cluster groups** (`ClusterGroups`): clusters grouped by cluster type in ascending type order, at most `size` per type.
- **Track list** (`TrackLists`): a class holding the list's entries and timestamps. It covers adding, removing and paging entries, the track ids and the cluster groups.
- **Audio transcoding resource** (`AudioTranscoding`):
  - decimal parsing of request parameters;
  - the output-format check;
  - the mandatory and optional transcoding parameters;
  - the resource URL and its round trip.
- **Subsonic album response** (`SubsonicAlbum`):
  - the attributes, arrays and children of an album node, in the plain form and the OpenSubsonic form;
  - the release-type names.
- **ListenBrainz scrobbling backend** (`ListenBrainz`): the rule deciding whether a finished listen is scrobbled, and the queue of listens handed to the synchronizer.

## How the parts are modelled

Code that changes objects in place is modelled as Dafny classes with `modifies` clauses:

- the features engine;
- the cache store;
- the track list;
- the ListenBrainz backend.

The engine's methods are each proved equal to a pure specification function (`LoadNetworkSpec`, `TrainingSpec`, `LoadSpec`). Properties are then proved of those functions. Loops from the source keep their loops, with invariants. These include:

- summing feature dimensions;
- filling the input vector and the weight vector, which stay Dafny arrays as in the source;
- the sample-extraction and classification loops;
- the per-track indexing loop;
- building the cluster buckets.

The SOM itself (training, normalisation, finding the closest reference vector, grid sizing, median distance) is a parameter (`Som`), and so are the database lookups and the clock. Query results reach the model as plain values.

## Model

| member | source | states |
|---|---|---|
| Recommendation.DefaultTrainFeatureSettings | src/libs/recommendation/impl/features/FeaturesEngine.cpp:44-57 | the default training uses five distinct features, each with weight 1 |
| FeatureVectors.NbDimensions | src/libs/recommendation/impl/features/FeaturesEngine.cpp:136-141 | the loop's result is the sum of the declared dimension counts over the set of requested feature names |
| FeatureVectors.SetDimsRemove | src/libs/recommendation/impl/features/FeaturesEngine.cpp:140-141 | the dimension sum over a set can peel off any member, so it does not depend on the order in which the unordered set is visited |
| FeatureVectors.SeqDimsIsSetDims | src/libs/recommendation/impl/features/FeaturesEngine.cpp:136-141 | for a duplicate-free list of names, summing in list order equals summing over the set of names |
| Recommendation.SettingDims | src/libs/recommendation/impl/features/FeaturesEngine.cpp:136-141 | for settings without duplicate names, the dimensions in settings order equal the network's dimension count |
| FeatureVectors.ConcatLength | src/libs/recommendation/impl/features/FeaturesEngine.cpp:96-107 | when every feature has its declared number of values, the concatenated values fill exactly the sum of those dimensions |
| FeatureVectors.InputVectorOf | src/libs/recommendation/impl/features/FeaturesEngine.cpp:90-110 | conversion fails exactly when some feature's value count differs from its declared dimension; otherwise the vector has `nbDimensions` entries, starts with every feature's values in map order and is zero after them |
| FeatureVectors.ConvertFeatureValuesMapToInputVector | src/libs/recommendation/impl/features/FeaturesEngine.cpp:90-110 | the in-place array fill returns exactly the vector (or the failure) that `InputVectorOf` specifies |
| FeatureVectors.WriteValues | src/libs/recommendation/impl/features/FeaturesEngine.cpp:105-106 | copying one feature's values writes them at the current index and leaves the entries before and after untouched |
| FeatureVectors.ConcatAt | src/libs/recommendation/impl/features/FeaturesEngine.cpp:96-107 | value `i` of feature `j` sits at the sum of the dimensions of the earlier features, plus `i` |
| FeatureVectors.WeightLayoutAt | src/libs/recommendation/impl/features/FeaturesEngine.cpp:112-129 | each dimension of feature `j` carries feature `j`'s weight divided by its dimension count, at the position that follows the earlier features' dimensions |
| FeatureVectors.WeightLayoutLength | src/libs/recommendation/impl/features/FeaturesEngine.cpp:116-126 | the weight vector has one slot per dimension, and every slot is a weight share |
| FeatureVectors.InputVectorAlignsWithWeights | src/libs/recommendation/impl/features/FeaturesEngine.cpp:90-129 | when values and settings list the same features in the same order, every input value lands on the slot weighted for its own feature |
| FeatureVectors.FillShares | src/libs/recommendation/impl/features/FeaturesEngine.cpp:122-123 | filling one feature's slots appends `n` copies of its share after the earlier slots |
| FeatureVectors.GetInputVectorWeights | src/libs/recommendation/impl/features/FeaturesEngine.cpp:112-129 | the weights are the feature-by-feature share layout and have `nbDimensions` entries, which the source asserts at line 126 |
| Recommendation.FeaturesWithinFit | src/libs/recommendation/impl/features/FeaturesEngine.cpp:168-178 | when every track's features lie among the requested names, each track's features fit in the network's dimension count |
| Recommendation.GridSide | src/libs/recommendation/impl/features/FeaturesEngine.cpp:200-205 | the grid side is at least 2: the SOM's estimate when that is 2 or more, otherwise 2 |
| Recommendation.Vectors | src/libs/recommendation/impl/features/FeaturesEngine.cpp:168-183 | one sample per selected track, each of the network's dimension |
| Recommendation.VectorOf | src/libs/recommendation/impl/features/FeaturesEngine.cpp:168-178 | a convertible track's sample is the vector `InputVectorOf` produces |
| Recommendation.Normalized | src/libs/recommendation/impl/features/FeaturesEngine.cpp:193-198 | normalisation keeps the number of samples |
| Recommendation.NormalizeSamples | src/libs/recommendation/impl/features/FeaturesEngine.cpp:193-198 | the loop normalises every sample in order, as `Normalized` specifies |
| Recommendation.FeaturesEngine.ExtractSamples | src/libs/recommendation/impl/features/FeaturesEngine.cpp:162-184 | the loop stops exactly when cancellation was requested and there is a track left; otherwise the ids kept are the tracks whose features convert, in order, and the samples are their vectors |
| Recommendation.FeaturesEngine.ClassifySamples | src/libs/recommendation/impl/features/FeaturesEngine.cpp:226-236 | when not cancelled, each sample's track is mapped to its closest grid position |
| Recommendation.ClassifyDistinct | src/libs/recommendation/impl/features/FeaturesEngine.cpp:227-236 | for distinct track ids, the classification has exactly those tracks, each with the single position of its own sample |
| Recommendation.TrainingNone | src/libs/recommendation/impl/features/FeaturesEngine.cpp:162-191 | training gives up exactly when no track with features can be converted into a sample |
| Recommendation.TrainingNetwork | src/libs/recommendation/impl/features/FeaturesEngine.cpp:200-211 | a trained network is square, has side at least 2, has the requested dimension count and uses the feature weight layout |
| Recommendation.TrainingPositions | src/libs/recommendation/impl/features/FeaturesEngine.cpp:156-236 | after training, the positioned tracks are exactly the convertible tracks with features, each at exactly one position |
| Recommendation.FeaturesEngine.LoadFromTraining | src/libs/recommendation/impl/features/FeaturesEngine.cpp:131-241 | the engine ends in the state that `TrainingSpec` gives, and stays duplicate-free |
| Recommendation.FeaturesEngine.constructor | src/libs/recommendation/impl/features/FeaturesEngine.cpp:39-42 | a new engine has no network, no positions, empty matrices and no pending cancellation |
| Recommendation.FeaturesEngine.RequestCancelLoad | src/libs/recommendation/impl/features/FeaturesEngine.cpp:386-391 | only the cancellation flag changes |
| Recommendation.FeaturesEngine.ToCache | src/libs/recommendation/impl/features/FeaturesEngine.cpp:359-363 | the cache holds the engine's network and track positions |
| Recommendation.FeaturesEngine.IndexTrackAndRelease | src/libs/recommendation/impl/features/FeaturesEngine.cpp:424-432 | the track, and its release if it has one, are recorded at the position without duplicates |
| Recommendation.FeaturesEngine.IndexArtistLink | src/libs/recommendation/impl/features/FeaturesEngine.cpp:435-445 | the artist is recorded at the position, in the matrix of its link type, which is created empty when it is missing |
| Recommendation.FeaturesEngine.IndexArtistLinks | src/libs/recommendation/impl/features/FeaturesEngine.cpp:433-446 | every artist link of the track is indexed in order |
| Recommendation.FeaturesEngine.IndexPosition | src/libs/recommendation/impl/features/FeaturesEngine.cpp:422-447 | one position of a track indexes the track, its release and its artists |
| Recommendation.FeaturesEngine.IndexTrack | src/libs/recommendation/impl/features/FeaturesEngine.cpp:422-447 | every position of the track is indexed in order |
| Recommendation.FeaturesEngine.IndexTracksLoop | src/libs/recommendation/impl/features/FeaturesEngine.cpp:411-448 | the loop returns early exactly when cancellation was requested and there is a track to index, and then changes nothing more; otherwise it indexes every existing track |
| Recommendation.FeaturesEngine.LoadNetwork | src/libs/recommendation/impl/features/FeaturesEngine.cpp:393-453 | the engine ends in the state that `LoadNetworkSpec` gives: track and release matrices reset, tracks indexed, then the network adopted unless cancelled |
| Recommendation.FeaturesEngine.LoadFromCache | src/libs/recommendation/impl/features/FeaturesEngine.cpp:243-249 | loading a cache is loading its network and track positions |
| Recommendation.CacheStore.constructor | src/libs/recommendation/impl/features/FeaturesEngine.cpp:365-384 | the store starts with the given contents |
| Recommendation.CacheStore.Invalidate | src/libs/recommendation/impl/features/FeaturesEngine.cpp:368-371 | after invalidation there is no cache |
| Recommendation.CacheStore.Write | src/libs/recommendation/impl/features/FeaturesEngine.cpp:382-383 | the store holds exactly the written cache |
| Recommendation.FeaturesEngine.Load | src/libs/recommendation/impl/features/FeaturesEngine.cpp:365-384 | the engine and the store end as `LoadSpec` gives: a forced reload invalidates the store; a stored cache is loaded, otherwise the engine trains; the cache is written only when the load was not cancelled and a network exists |
| Recommendation.TrainedLoadWritesCache | src/libs/recommendation/impl/features/FeaturesEngine.cpp:365-384 | an uncancelled load that trains on at least one convertible track writes the trained network and the loaded positions to the store |
| Recommendation.AsWrittenGuardWithoutNetwork | src/libs/recommendation/impl/features/FeaturesEngine.cpp:381-383 | as written, the write guard passes after a training run that produced no network, whereas the corrected guard does not |
| Recommendation.CancelledLoadChangesNothing | src/libs/recommendation/impl/features/FeaturesEngine.cpp:365-384 | a training load that was already cancelled leaves the engine unchanged and no cache afterwards (a forced reload has already invalidated it) |
| Recommendation.CancelledCacheLoadKeepsNetwork | src/libs/recommendation/impl/features/FeaturesEngine.cpp:398-414 | a cancelled cache load keeps the old network and positions but leaves the track matrix reset and empty |
| Recommendation.CacheReloadRestoresPositions | src/libs/recommendation/impl/features/FeaturesEngine.cpp:411-450 | loading a cache into a fresh engine restores exactly the cached network and track positions when all cached tracks still exist |
| Recommendation.KeepExisting | src/libs/recommendation/impl/features/FeaturesEngine.cpp:283-287 | the result is the input ids that still exist, in their original order |
| Recommendation.FeaturesEngine.GetSimilarTracks | src/libs/recommendation/impl/features/FeaturesEngine.cpp:272-291 | the result is exactly the similar tracks that still exist, in the similarity order |
| Recommendation.FeaturesEngine.GetSimilarTracksFromTrackList | src/libs/recommendation/impl/features/FeaturesEngine.cpp:251-270 | a missing track list is read as an empty one; otherwise its tracks are the query |
| Recommendation.FeaturesEngine.GetSimilarReleases | src/libs/recommendation/impl/features/FeaturesEngine.cpp:293-313 | the result is exactly the similar releases that still exist, in the similarity order |
| Recommendation.ArtistCandidatesStep | src/libs/recommendation/impl/features/FeaturesEngine.cpp:331-337 | the candidates of one more link type add exactly that type's similar artists to the union |
| Recommendation.CollectArtistCandidates | src/libs/recommendation/impl/features/FeaturesEngine.cpp:318-337 | the loop collects the union of the similar artists over every requested link type |
| Recommendation.SetToSeq | src/libs/recommendation/impl/features/FeaturesEngine.cpp:339 | the list has each element of the set once |
| Recommendation.TrimToCount | src/libs/recommendation/impl/features/FeaturesEngine.cpp:353-354 | the result has `min(maxCount, size)` distinct elements of the input, and is the input itself when that already fits |
| Recommendation.FeaturesEngine.GetSimilarArtists | src/libs/recommendation/impl/features/FeaturesEngine.cpp:315-357 | the result is duplicate-free, contains only existing candidate artists, and has `min(maxCount, number of such artists)` of them; all of them when they fit |
| EngineIndex.PushPairs | src/libs/recommendation/impl/features/FeaturesEngine.cpp:424 | pushing `(id, p)` adds exactly that pair to the position relation and never creates a duplicate |
| EngineIndex.AddCellPairs | src/libs/recommendation/impl/features/FeaturesEngine.cpp:425 | adding `id` to cell `p` adds exactly that pair to the matrix relation and never creates a duplicate |
| EngineIndex.AddArtistCell | src/libs/recommendation/impl/features/FeaturesEngine.cpp:438-445 | adding an artist to its link type's matrix, created empty when missing, adds exactly that one triple |
| EngineIndex.AddArtistLinkRels | src/libs/recommendation/impl/features/FeaturesEngine.cpp:435-445 | one artist link adds exactly its artist's position and its matrix cell |
| EngineIndex.AddArtistLinkValid | src/libs/recommendation/impl/features/FeaturesEngine.cpp:435-445 | one artist link keeps every list duplicate-free and every matrix at the grid size |
| EngineIndex.AddArtistLinksRels | src/libs/recommendation/impl/features/FeaturesEngine.cpp:433-446 | indexing all links adds exactly the union of their contributions |
| EngineIndex.AddArtistLinksValid | src/libs/recommendation/impl/features/FeaturesEngine.cpp:433-446 | indexing all links keeps every list duplicate-free and every matrix at the grid size |
| EngineIndex.AddTrackAndReleaseRels | src/libs/recommendation/impl/features/FeaturesEngine.cpp:424-432 | a track position adds exactly the track's pair and, if it has one, the release's pair |
| EngineIndex.AddTrackOnlyRels | src/libs/recommendation/impl/features/FeaturesEngine.cpp:424-425 | the track's two pushes add the track's pair to both the position relation and the cell relation |
| EngineIndex.AddReleaseOnlyRels | src/libs/recommendation/impl/features/FeaturesEngine.cpp:427-432 | the release's two pushes add the release's pair to both the position relation and the cell relation |
| EngineIndex.AddPositionRels | src/libs/recommendation/impl/features/FeaturesEngine.cpp:422-447 | one position of a track adds exactly the track, release and artist facts of that position |
| EngineIndex.AddPositionValid | src/libs/recommendation/impl/features/FeaturesEngine.cpp:422-447 | one position keeps the index duplicate-free and matrices at the grid size |
| EngineIndex.AddTrackRels | src/libs/recommendation/impl/features/FeaturesEngine.cpp:422-447 | a track adds exactly the facts of all its positions |
| EngineIndex.AddTrackValid | src/libs/recommendation/impl/features/FeaturesEngine.cpp:422-447 | a track keeps the index duplicate-free and matrices at the grid size |
| EngineIndex.IndexTracksRels | src/libs/recommendation/impl/features/FeaturesEngine.cpp:411-448 | the loop adds exactly the facts of every track that still exists |
| EngineIndex.IndexTracksValid | src/libs/recommendation/impl/features/FeaturesEngine.cpp:411-448 | the loop keeps the index duplicate-free and matrices at the grid size |
| EngineIndex.LoadedRels | src/libs/recommendation/impl/features/FeaturesEngine.cpp:404-448 | after a load, the matrices hold only the new corpus, while the position lists hold the old lists plus the new corpus |
| EngineIndex.LoadedTracks | src/libs/recommendation/impl/features/FeaturesEngine.cpp:404-448 | track `t` is in cell `p` iff it exists and `p` is one of its loaded positions; its recorded positions are the old ones plus the loaded ones |
| EngineIndex.FirstLoadTrackMatrixMatchesPositions | src/libs/recommendation/impl/features/FeaturesEngine.cpp:404-448 | on an engine without track positions, the track matrix and the track positions agree after a load |
| EngineIndex.LoadedReleases | src/libs/recommendation/impl/features/FeaturesEngine.cpp:404-448 | a release is in cell `p` iff one of its existing tracks was loaded at `p`; its positions are the old ones plus those |
| EngineIndex.LoadedArtists | src/libs/recommendation/impl/features/FeaturesEngine.cpp:433-446 | an artist linked to a track loaded at `p` is recorded at `p`, both in its positions and in its link type's matrix |
| EngineIndex.LoadedArtistPositions | src/libs/recommendation/impl/features/FeaturesEngine.cpp:433-446 | an artist's recorded positions are its old ones plus those of its existing loaded tracks, and nothing else |
| EngineIndex.LoadedArtistCells | src/libs/recommendation/impl/features/FeaturesEngine.cpp:433-446 | an artist is in a link-type cell iff it was there before or an existing loaded track links it with that type at that position |
| EngineIndex.LoadedShapes | src/libs/recommendation/impl/features/FeaturesEngine.cpp:401-446 | a load keeps the index duplicate-free, sizes the track and release matrices to the new grid, keeps every existing artist matrix at its old size and gives the new grid to a link type's matrix created by this load |
| EngineIndex.AddTrackPositions | src/libs/recommendation/impl/features/FeaturesEngine.cpp:422-425 | a track indexed for the first time gets exactly its own position list |
| EngineIndex.IndexTracksPositions | src/libs/recommendation/impl/features/FeaturesEngine.cpp:411-425 | indexing new tracks extends the position map with exactly their loaded positions |
| EngineIndex.ReloadRestoresPositions | src/libs/recommendation/impl/features/FeaturesEngine.cpp:411-425 | loading a position map into an empty index reproduces it exactly when all its tracks exist |
| EngineIndex.ReloadKeepsStalePositions | src/libs/recommendation/impl/features/FeaturesEngine.cpp:404-424 | a second load keeps a track's old position in its position list although that position is no longer in the track matrix |
| ClusterGroups.SortedKeysAre | src/libs/services/database/impl/Release.cpp:523-525 | the cluster types are visited each once, in strictly ascending order |
| ClusterGroups.BucketsKeys | src/libs/services/database/impl/Release.cpp:516-521 | a bucket exists exactly for each cluster type that occurs |
| ClusterGroups.BucketsLists | src/libs/services/database/impl/Release.cpp:516-521 | each bucket holds the first `size` clusters of its type, in query order |
| ClusterGroups.GroupsBounded | src/libs/services/database/impl/Release.cpp:516-527 | every group has at most `size` clusters, all of one type |
| ClusterGroups.GroupsOfOneType | src/libs/services/database/impl/Release.cpp:516-527 | clusters of a single type form a single group of their first `size` |
| ClusterGroups.GroupsWithin | src/libs/services/database/impl/Release.cpp:516-527 | every grouped cluster comes from the query |
| ClusterGroups.GroupsAscending | src/libs/services/database/impl/Release.cpp:523-527 | earlier groups have strictly smaller cluster types |
| ClusterGroups.GroupsPerType | src/libs/services/database/impl/Release.cpp:516-527 | there is exactly one group per occurring cluster type |
| ClusterGroups.GroupsEmptyWhenNoRoom | src/libs/services/database/impl/Release.cpp:519-520 | with size 0 every group is empty |
| ClusterGroups.GroupClusters | src/libs/services/database/impl/Release.cpp:514-527 | the method computes `Groups`, the grouping the lemmas above describe |
| ClusterGroups.BucketClusters | src/libs/services/database/impl/TrackList.cpp:227-232 | the bucketing loop computes the per-type buckets |
| ClusterGroups.EmitGroups | src/libs/services/database/impl/TrackList.cpp:234-235 | the buckets are emitted in ascending type order |
| Releases.TruncateName | src/libs/services/database/impl/Release.cpp:203-206 | the stored name is a prefix of the given one, at most the maximum length in bytes, and the whole name when it fits |
| Releases.TruncateNameIdempotent | src/libs/services/database/impl/Release.cpp:214-224 | truncating an already truncated name changes nothing |
| Releases.NewRelease | src/libs/services/database/impl/Release.cpp:203-207 | a new release stores the truncated name and the MBID, or the empty string without one |
| Releases.FindByName | src/libs/services/database/impl/Release.cpp:214-224 | the result is exactly the rows whose name equals the truncated query name |
| Releases.CreatedReleaseIsFound | src/libs/services/database/impl/Release.cpp:209-224 | a created release is found by the name it was created with, even a name longer than the maximum |
| Releases.FindByNameSharedPrefix | src/libs/services/database/impl/Release.cpp:214-224 | two long names with the same first `maxNameLength` bytes find the same releases |
| Releases.ReleaseDate | src/libs/services/database/impl/Release.cpp:345-363 | a reported date is one of the tracks' dates |
| Releases.ReleaseDateSingle | src/libs/services/database/impl/Release.cpp:358-362 | the date is `d` iff there are tracks and all of them have date `d` |
| Releases.ReleaseDateConflict | src/libs/services/database/impl/Release.cpp:358-360 | two tracks with different dates give no release date |
| Releases.SingleNonEmpty | src/libs/services/database/impl/Release.cpp:365-400 | a reported copyright or copyright URL is non-empty and is one of the tracks' values |
| Releases.SingleNonEmptyIff | src/libs/services/database/impl/Release.cpp:377-381 | the value is `v` iff `v` is non-empty, there are tracks and all of them carry `v` |
| Releases.SingleNonEmptyConflict | src/libs/services/database/impl/Release.cpp:384-400 | two tracks with different values give none |
| Releases.MeanBitrate | src/libs/services/database/impl/Release.cpp:402-410 | the mean is 0 iff no track has a positive bitrate |
| Releases.MeanBitrateBounds | src/libs/services/database/impl/Release.cpp:402-410 | the mean lies between the smallest and the largest positive bitrate |
| Releases.MeanBitrateIgnoresZero | src/libs/services/database/impl/Release.cpp:402-410 | a track with bitrate 0 does not change the mean |
| Releases.MeanBitrateOfOne | src/libs/services/database/impl/Release.cpp:402-410 | the mean of one positive bitrate is that bitrate |
| Releases.MeanBitrateOfTwo | src/libs/services/database/impl/Release.cpp:402-410 | the mean of two positive bitrates is their integer average |
| Releases.MeanBitrateExamples | src/libs/services/database/impl/Release.cpp:402-410 | concrete means: none gives 0, 128 gives 128, 128 and 256 give 192 |
| Releases.HasVariousArtists | src/libs/services/database/impl/Release.cpp:457-461 | various artists needs more than one track artist |
| Releases.HasVariousArtistsIff | src/libs/services/database/impl/Release.cpp:457-461 | various artists iff two track artists differ |
| TrackLists.Slice | src/libs/services/database/impl/TrackList.cpp:151-164 | without a range all entries; with one, at most `size + 1` consecutive entries from `offset` on, as many as remain, and none past the end |
| TrackLists.SlicePrefix | src/libs/services/database/impl/TrackList.cpp:151-164 | the first `size` entries of a page are the entries from `offset` on, as far as they exist |
| TrackLists.SliceOneOfTwo | src/libs/services/database/impl/TrackList.cpp:151-164 | on a two-entry list, range (1, 1) gives only the second entry |
| TrackLists.TrackList.constructor | src/libs/services/database/impl/TrackList.cpp:38-47 | a new list has the given name, type and visibility and no entries; its creation and last-modification times are the two clock readings, equal when the readings agree |
| TrackLists.TrackList.GetEntries | src/libs/services/database/impl/TrackList.cpp:151-164 | every returned entry is an entry of the list |
| TrackLists.TrackList.GetEntry | src/libs/services/database/impl/TrackList.cpp:140-149 | the entry at `pos` when it exists, none otherwise |
| TrackLists.TrackList.GetCount | src/libs/services/database/impl/TrackList.cpp:135-138 | the count is the number of positions that hold an entry: `pos < count` exactly when `GetEntry(pos)` finds one |
| TrackLists.TrackList.IsEmpty | src/libs/services/database/impl/TrackList.cpp:130-138 | the list is empty iff its count is 0 iff it has no entry at position 0 |
| TrackLists.TrackList.GetTrackIds | src/libs/services/database/impl/TrackList.cpp:273-281 | one track id per entry, in entry order |
| TrackLists.TrackList.SetLastModifiedDateTime | src/libs/services/database/impl/TrackList.cpp:295-298 | only the modification time changes |
| TrackLists.TrackList.AddEntry | src/libs/services/database/impl/TrackList.cpp:300-317 | the entry is appended, its track is appended to the track ids, the modification time becomes now and nothing else changes |
| TrackLists.TrackList.RemoveEntry | src/libs/services/database/impl/TrackList.cpp:319-322 | only that entry is removed, the others keep their order, and the modification time becomes now |
| TrackLists.TrackList.GetClusterGroups | src/libs/services/database/impl/TrackList.cpp:190-238 | no cluster types give no groups; otherwise the clusters of the requested types are grouped as in `ClusterGroups.Groups` |
| TrackLists.ListGroupsWithin | src/libs/services/database/impl/TrackList.cpp:190-238 | every grouped cluster belongs to the list and has a requested type, and each group has at most `size` clusters |
| AudioTranscoding.ParseNat | src/lms/ui/resource/AudioTranscodingResource.cpp:100 | an unsigned parameter parses iff it is a non-empty string of digits |
| AudioTranscoding.ParseInt | src/lms/ui/resource/AudioTranscodingResource.cpp:43 | digit strings parse to their value, and a negative value needs a leading minus sign |
| AudioTranscoding.ParseIntNegative | src/lms/ui/resource/AudioTranscodingResource.cpp:43 | every integer's decimal form, with or without a minus sign, parses back to it |
| AudioTranscoding.NatToString | src/lms/ui/resource/AudioTranscodingResource.cpp:169 | the decimal form of an id is a non-empty digit string |
| AudioTranscoding.NatToStringRoundTrip | src/lms/ui/resource/AudioTranscodingResource.cpp:167-170 | parsing an id's decimal form gives the id back |
| AudioTranscoding.ReadFormat | src/lms/ui/resource/AudioTranscodingResource.cpp:40-67 | an unparsable value gives no format, and a format is returned only for its own code |
| AudioTranscoding.ReadFormatIff | src/lms/ui/resource/AudioTranscodingResource.cpp:47-61 | with distinct codes, the format is `f` iff the value parses to `f`'s code |
| AudioTranscoding.ReadFormatUnknownCode | src/lms/ui/resource/AudioTranscodingResource.cpp:64-66 | a code that matches no format is rejected |
| AudioTranscoding.AvFormatOf | src/lms/ui/resource/AudioTranscodingResource.cpp:74-88 | every output format maps to a transcoder format |
| AudioTranscoding.AvFormatOfInjective | src/lms/ui/resource/AudioTranscodingResource.cpp:76-83 | different output formats map to different transcoder formats |
| AudioTranscoding.ReadTranscodingParameters | src/lms/ui/resource/AudioTranscodingResource.cpp:113-159 | fails iff track id, format or bitrate is missing or malformed, the bitrate is not allowed, or the track does not exist; otherwise input is the track's path and duration, metadata is stripped, format and bitrate are as requested, and the offset defaults to 0 |
| AudioTranscoding.GetUrl | src/lms/ui/resource/AudioTranscodingResource.cpp:167-170 | the URL is the resource URL, then `&trackid=`, then a non-empty id |
| AudioTranscoding.GetUrlRoundTrip | src/lms/ui/resource/AudioTranscodingResource.cpp:167-170 | the track id parameter of the URL parses back to the track id |
| AudioTranscoding.GetUrlInjective | src/lms/ui/resource/AudioTranscodingResource.cpp:167-170 | different tracks get different URLs |
| SubsonicAlbum.PrimaryTypeName | src/libs/subsonic/impl/responses/Album.cpp:43-55 | every primary type name is a lower-case word |
| SubsonicAlbum.PrimaryTypeNameInjective | src/libs/subsonic/impl/responses/Album.cpp:45-52 | different primary types have different names |
| SubsonicAlbum.SecondaryTypeNameAsWritten | src/libs/subsonic/impl/responses/Album.cpp:57-75 | as written, the names are lower-case words and match the intended names except for Spokenword |
| SubsonicAlbum.SecondaryTypeNameAsWrittenCollides | src/libs/subsonic/impl/responses/Album.cpp:70-71 | as written, Spokenword and Soundtrack get the same name |
| SubsonicAlbum.SecondaryTypeName | src/libs/subsonic/impl/responses/Album.cpp:57-75 | every secondary type name is a lower-case word |
| SubsonicAlbum.SecondaryTypeNameInjective | src/libs/subsonic/impl/responses/Album.cpp:59-72 | with Spokenword named "spokenword", different secondary types have different names |
| SubsonicAlbum.ArtistsOf | src/libs/subsonic/impl/responses/Album.cpp:102-104 | the release artists when there are any, otherwise the track artists; empty iff both are |
| SubsonicAlbum.SecondaryTypeNames | src/libs/subsonic/impl/responses/Album.cpp:204-205 | one corrected name per secondary type, in order |
| SubsonicAlbum.SecondaryTypeNamesDifferOnlyForSpokenword | src/libs/subsonic/impl/responses/Album.cpp:204-205 | a release type in the node equals the name the code as written sends exactly when the type is not Spokenword |
| SubsonicAlbum.DiscTitleChildrenAre | src/libs/subsonic/impl/responses/Album.cpp:207-213 | disc-title children are exactly the discs with a non-empty name |
| SubsonicAlbum.AppendToArray | src/libs/subsonic/impl/responses/Album.cpp:185-205 | the items are appended in order to one array of the node, and the other arrays are untouched |
| SubsonicAlbum.AddDiscTitles | src/libs/subsonic/impl/responses/Album.cpp:207-213 | the disc-title children are appended to the disc-title array |
| SubsonicAlbum.TitleAttributes | src/libs/subsonic/impl/responses/Album.cpp:82-100 | sets the name, song count and duration (id3) or the title and directory flag, then the creation date, id, cover and year (when the release date is valid), exactly as `TitleAttributeMap` gives them |
| SubsonicAlbum.ArtistAttributes | src/libs/subsonic/impl/responses/Album.cpp:102-126 | the artist attributes are added over the earlier ones |
| SubsonicAlbum.FirstGenre | src/libs/subsonic/impl/responses/Album.cpp:130-137 | the genre is the first cluster of the genre type, if any |
| SubsonicAlbum.BaseAttributes | src/libs/subsonic/impl/responses/Album.cpp:80-140 | the method builds the whole base attribute map |
| SubsonicAlbum.OpenSubsonicAttributes | src/libs/subsonic/impl/responses/Album.cpp:145-200 | the OpenSubsonic attributes are added over the base ones |
| SubsonicAlbum.OpenSubsonicValues | src/libs/subsonic/impl/responses/Album.cpp:159-205 | the moods array and the release-type names, with the corrected secondary type names |
| SubsonicAlbum.OpenSubsonicChildren | src/libs/subsonic/impl/responses/Album.cpp:177-213 | the genre, artist and disc-title children |
| SubsonicAlbum.CreateAlbumNode | src/libs/subsonic/impl/responses/Album.cpp:78-216 | a plain node has only the base attributes and no arrays; an OpenSubsonic node adds its attributes, arrays and children |
| SubsonicAlbum.PlainNodeHasNoExtras | src/libs/subsonic/impl/responses/Album.cpp:142-143 | a plain node sets no key outside the base Subsonic keys |
| SubsonicAlbum.NodeNaming | src/libs/subsonic/impl/responses/Album.cpp:82-124 | an ID3 node carries its name under `name` and no `title` or `parent`; a folder node carries it under `title` and is a directory |
| SubsonicAlbum.NodeArtists | src/libs/subsonic/impl/responses/Album.cpp:102-126 | without artists there is no artist attribute and a folder's parent is the root; with one artist its id is the artist id or the parent; with several there is no artist id |
| SubsonicAlbum.OpenSubsonicKeepsBase | src/libs/subsonic/impl/responses/Album.cpp:145-200 | the OpenSubsonic extension never overwrites a base attribute |
| SubsonicAlbum.ReleaseTypesListed | src/libs/subsonic/impl/responses/Album.cpp:201-205 | the release types list the primary type name first, then every corrected secondary type name in order |
| SubsonicAlbum.AlbumGenreIsMostUsed | src/libs/subsonic/impl/responses/Album.cpp:130-137 | the album's genre is the first cluster of the genre query |
| ListenBrainz.CanBeScrobbled | src/libs/services/scrobbling/impl/listenbrainz/ListenBrainzBackend.cpp:37-50 | a listen can be scrobbled iff its track exists and the listen lasted at least four minutes or at least half the track's length in milliseconds, rounded down |
| ListenBrainz.UnknownTrackNotScrobbled | src/libs/services/scrobbling/impl/listenbrainz/ListenBrainzBackend.cpp:41-43 | a listen of a track that no longer exists is not scrobbled |
| ListenBrainz.ScrobbleMonotone | src/libs/services/scrobbling/impl/listenbrainz/ListenBrainzBackend.cpp:45 | listening longer never stops a listen from being scrobbled |
| ListenBrainz.FullListenScrobbled | src/libs/services/scrobbling/impl/listenbrainz/ListenBrainzBackend.cpp:45 | a listen of the whole track, or of at least four minutes, is scrobbled |
| ListenBrainz.ScrobbleThresholds | src/libs/services/scrobbling/impl/listenbrainz/ListenBrainzBackend.cpp:45 | the exact thresholds: four minutes for a ten-minute track, half the length for a three-minute track |
| ListenBrainz.ListenBrainzBackend.constructor | src/libs/services/scrobbling/impl/listenbrainz/ListenBrainzBackend.cpp:53-61 | a new backend has nothing queued |
| ListenBrainz.ListenBrainzBackend.ListenStarted | src/libs/services/scrobbling/impl/listenbrainz/ListenBrainzBackend.cpp:68-71 | a now-playing listen is queued |
| ListenBrainz.ListenBrainzBackend.ListenFinished | src/libs/services/scrobbling/impl/listenbrainz/ListenBrainzBackend.cpp:73-80 | a timed listen is queued iff no duration was given or the listen can be scrobbled; otherwise nothing changes |
| ListenBrainz.ListenBrainzBackend.AddTimedListen | src/libs/services/scrobbling/impl/listenbrainz/ListenBrainzBackend.cpp:82-85 | the timed listen is queued |

## Left out

- The SOM algorithms (training, normalisation, closest reference vector, reference-vector median distance) and `getSimilarObjects` are the `Som` and `SimilarObjects` parameters. They are floating-point code outside these files, and the model takes their results as given.
- Grid sizing (`sqrt` of the sample count divided by the samples per neuron) is the `Som.gridSide` parameter. The model proves only the lower bound of 2 that FeaturesEngine.cpp applies.
- Feature weights are Dafny `real` values. Float rounding of `weight / dimensionCount` is not modelled.
- Random tie-breaking (`pickRandom`) and the iteration order of the C++ unordered containers are parameters. `KeyOrder` gives the order in which a positions map is visited; the results proved do not depend on it.
- Cancellation is a field that a separate thread sets. The model is sequential: the flag is read where the source reads it, and no concurrent change is modelled.
- Database sessions, transactions, logging, the clock and the service lookups are left out. Query results arrive as plain values: the library, the catalog, the feature values, cluster lists, genre names and moods.
- Recommendation.FeaturesEngine.Load: the feature definitions and their dimension counts (`getFeatureDef`) are a parameter. The iteration count comes from the configuration through a parameter.
- FeatureVectors.GetInputVectorWeights: requires `nbDimensions` to equal the layout length. This is the condition the source asserts at FeaturesEngine.cpp:126.
- Releases.MeanBitrate: SQL `AVG` over integers is read as an integer average rounded down. The C++ integer width is not modelled.
- Releases.FindByName: the SQL `name = ?` comparison is modelled as exact string equality; database collation is not modelled.
- Releases.ReleaseDate: the `GROUP BY` query is modelled over the list of the tracks' dates: one distinct value means all tracks agree. The same holds for Releases.SingleNonEmpty.
- TrackLists.TrackList.AddEntry: the database-assigned entry id is modelled as a counter, and `Utils::normalizeDateTime` as the identity on a clock value passed in.
- TrackLists.TrackList.GetTrackIds: the query has no `ORDER BY`; the model returns the ids in entry order.
- AudioTranscoding: `Database::isAudioBitrateAllowed` is a parameter set. `url()` is the resource's base URL string. `handleRequest`, the transcoder and HTTP streaming are not part of this model.
- AudioTranscoding.ParseNat / ParseInt: `StringUtils::readAs` is not part of this model. It is modelled as decimal parsing of the whole string, with no whitespace or range checks, and integer widths are not modelled.
- SubsonicAlbum: the OpenSubsonic attributes, arrays and children are built as three separate maps rather than interleaved in one node. Apart from the Spokenword release type (next line), the node's final content is the same. Date formatting and the cover id encoding are left to their string inputs.
- SubsonicAlbum.CreateAlbumNode, SubsonicAlbum.SecondaryTypeNames, SubsonicAlbum.OpenSubsonicValues, SubsonicAlbum.ReleaseTypesListed: release types use the corrected `SecondaryTypeName`, so a Spokenword release is listed as "spokenword" where Album.cpp:71 sends "soundtrack" (see Findings); `SecondaryTypeNamesDifferOnlyForSpokenword` states that this is the only difference.
- SubsonicAlbum.SecondaryTypeName: the unreachable "unknown" fallback after the exhaustive switch is not modelled.
- Releases.TruncateName: a string is its sequence of UTF-8 bytes, one `char` per byte, so truncation may split a multibyte character, as `std::string(name, 0, max)` does.
- TrackLists.TrackList.constructor: the two `currentDateTime()` readings are parameters, and `normalizeDateTime` is the identity.
- ListenBrainz: the synchronizer that sends queued listens over the network is not part of this model. The queue stands for what is handed to it.
- EngineIndex.LoadedShapes: a matrix's cells are an unbounded map from positions, so the model records each matrix's width and height but does not bounds-check a write. An artist matrix created by an earlier load keeps its old, possibly smaller, size, and FeaturesEngine.cpp:444 then writes new-grid positions into it; the model does not capture what that out-of-range access does.
- Recommendation.CancelledLoadChangesNothing: the lemma holds because `LoadSpec` already encodes the early return. It documents that path rather than proving a new fact.

### A reload is not a lossless round trip

A cache load restores the network and track positions exactly only on a fresh engine: FeaturesEngine.cpp:393-453 resets only the track and release matrices before indexing. It never clears `_trackPositions`, `_releasePositions`, `_artistPositions` or the artist matrices, and it skips tracks that no longer exist. The model follows the code:

- the round trip holds for a fresh engine whose cached tracks all exist (`Recommendation.CacheReloadRestoresPositions`);
- a second load keeps stale positions (`EngineIndex.ReloadKeepsStalePositions`).

## Findings

| source | as written | input that shows it | evidently intended | confidence | as-written member | corrected member |
|---|---|---|---|---|---|---|
| src/libs/recommendation/impl/features/FeaturesEngine.cpp:381-383 | after training, `load` writes `toCache()` whenever the load was not cancelled | a first load (no cache, no network yet) on a library where no track with features converts: training returns early without a network, and `toCache` then reads the missing network | write the cache only when a network exists | not executed | Recommendation.AsWrittenGuardWithoutNetwork | Recommendation.TrainedLoadWritesCache |
| src/libs/subsonic/impl/responses/Album.cpp:70-71 | secondary type Spokenword is reported as `"soundtrack"` | a release whose secondary type is Spokenword is listed with release type "soundtrack", the same as a Soundtrack release | report it as `"spokenword"` | not executed | SubsonicAlbum.SecondaryTypeNameAsWrittenCollides | SubsonicAlbum.SecondaryTypeNameInjective |
