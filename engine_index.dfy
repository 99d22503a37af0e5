/** The similarity index of the features engine: where each track, release
    and artist sits on the trained network's grid, and which ids each grid
    cell holds (FeaturesEngine.cpp, lines 393-453).

    The index is modelled as a value; `IndexTracks` is what the index loop of
    `load(network, trackPositions)` does to it, in the iteration order of the
    positions map. The lemmas state what the loop builds as relations between
    ids and positions, independently of that order. */
module EngineIndex {
  import opened Wrappers
  import opened SeqUtils

  type TrackId = nat
  type ReleaseId = nat
  type ArtistId = nat
  /** `TrackArtistLinkType` (artist, release artist, composer, ...). */
  type LinkType = nat

  /** `SOM::Position`: a cell of the network's grid. */
  datatype Position = Position(x: nat, y: nat)

  /** `SOM::Matrix<std::vector<Id>>`: a grid of id lists. A cell never written
      is an empty list. */
  datatype Matrix = Matrix(width: nat, height: nat, cells: map<Position, seq<nat>>)
  {
    function Cell(p: Position): seq<nat> {
      if p in cells then cells[p] else []
    }

    /** `push_back_if_not_present(matrix[p], id)`. */
    function Add(p: Position, id: nat): (r: Matrix)
      ensures r.width == width && r.height == height
    {
      this.(cells := cells[p := PushIfAbsent(Cell(p), id)])
    }
  }

  function EmptyMatrix(width: nat, height: nat): Matrix {
    Matrix(width, height, map[])
  }

  /** `TrackPositions` and the release and artist position maps: the grid
      cells of each id. An id never written has no cells. */
  type PositionsMap = map<nat, seq<Position>>

  function PositionsOf(m: PositionsMap, id: nat): seq<Position> {
    if id in m then m[id] else []
  }

  /** `push_back_if_not_present(positions[id], p)`. */
  function Push(m: PositionsMap, id: nat, p: Position): PositionsMap {
    m[id := PushIfAbsent(PositionsOf(m, id), p)]
  }

  /** What the index loop reads of a track that still exists: its release,
      if any, and its artist links. */
  datatype ArtistLink = ArtistLink(artist: ArtistId, linkType: LinkType)
  datatype TrackInfo = TrackInfo(release: Option<ReleaseId>, artistLinks: seq<ArtistLink>)

  /** `Track::getById`: the tracks that exist, with what the loop reads of them. */
  type Catalog = map<TrackId, TrackInfo>

  /** The six index members of the engine. The artist positions are shared by
      all link types; only the artist matrix is split per link type. */
  datatype Index = Index(
    trackPositions: PositionsMap,
    trackMatrix: Matrix,
    releasePositions: PositionsMap,
    releaseMatrix: Matrix,
    artistPositions: PositionsMap,
    artistMatrix: map<LinkType, Matrix>)

  function EmptyIndex(): Index {
    Index(map[], EmptyMatrix(0, 0), map[], EmptyMatrix(0, 0), map[], map[])
  }

  /* ---------------- the index loop ---------------- */

  /** One artist link of a track at position `p`: the artist's position is
      recorded in the shared map, and the artist goes into the cell of the
      matrix of its link type, a matrix of the network's size being created
      for a link type seen for the first time. */
  function AddArtistLink(ix: Index, link: ArtistLink, p: Position, width: nat, height: nat): Index {
    var mx := if link.linkType in ix.artistMatrix then ix.artistMatrix[link.linkType] else EmptyMatrix(width, height);
    ix.(artistPositions := Push(ix.artistPositions, link.artist, p),
        artistMatrix := ix.artistMatrix[link.linkType := mx.Add(p, link.artist)])
  }

  function AddArtistLinks(ix: Index, links: seq<ArtistLink>, p: Position, width: nat, height: nat): Index {
    if |links| == 0 then ix
    else AddArtistLink(AddArtistLinks(ix, links[..|links| - 1], p, width, height), links[|links| - 1], p, width, height)
  }

  /** One position of one existing track: the track, its release and its
      artists are recorded at `p`. */
  function AddPosition(ix: Index, t: TrackId, info: TrackInfo, p: Position, width: nat, height: nat): Index {
    AddArtistLinks(AddTrackAndRelease(ix, t, info, p), info.artistLinks, p, width, height)
  }

  function AddTrackAndRelease(ix: Index, t: TrackId, info: TrackInfo, p: Position): Index {
    var withTrack := ix.(trackPositions := Push(ix.trackPositions, t, p), trackMatrix := ix.trackMatrix.Add(p, t));
    match info.release
    case None => withTrack
    case Some(r) => withTrack.(releasePositions := Push(withTrack.releasePositions, r, p),
                               releaseMatrix := withTrack.releaseMatrix.Add(p, r))
  }

  function AddTrack(ix: Index, t: TrackId, info: TrackInfo, ps: seq<Position>, width: nat, height: nat): Index {
    if |ps| == 0 then ix
    else AddPosition(AddTrack(ix, t, info, ps[..|ps| - 1], width, height), t, info, ps[|ps| - 1], width, height)
  }

  /** The index loop over the positions map, visiting its tracks in `order`;
      a track that no longer exists is skipped. */
  function IndexTracks(ix: Index, tp: PositionsMap, order: seq<TrackId>, catalog: Catalog, width: nat, height: nat): Index {
    if |order| == 0 then ix
    else
      var prev := IndexTracks(ix, tp, order[..|order| - 1], catalog, width, height);
      var t := order[|order| - 1];
      if t in catalog then AddTrack(prev, t, catalog[t], PositionsOf(tp, t), width, height) else prev
  }

  /** The two matrices that a load replaces by empty ones of the network's
      size; every other member of the index is kept. */
  function ResetMatrices(ix: Index, width: nat, height: nat): Index {
    ix.(trackMatrix := EmptyMatrix(width, height), releaseMatrix := EmptyMatrix(width, height))
  }

  /** The index after a load that is not cancelled. */
  function LoadedIndex(ix: Index, width: nat, height: nat, tp: PositionsMap, order: seq<TrackId>, catalog: Catalog): Index {
    IndexTracks(ResetMatrices(ix, width, height), tp, order, catalog, width, height)
  }

  /* ---------------- the index as relations ---------------- */

  ghost function PairsOf(m: PositionsMap): set<(nat, Position)> {
    set id, p | id in m && p in m[id] :: (id, p)
  }

  ghost function CellPairs(mx: Matrix): set<(nat, Position)> {
    set p, id | p in mx.cells && id in mx.cells[p] :: (id, p)
  }

  ghost function ArtistCellTriples(am: map<LinkType, Matrix>): set<(LinkType, ArtistId, Position)> {
    set lt, p, id | lt in am && p in am[lt].cells && id in am[lt].cells[p] :: (lt, id, p)
  }

  /** Which id sits at which position, member by member. */
  datatype Rels = Rels(
    tracks: set<(TrackId, Position)>,
    trackCells: set<(TrackId, Position)>,
    releases: set<(ReleaseId, Position)>,
    releaseCells: set<(ReleaseId, Position)>,
    artists: set<(ArtistId, Position)>,
    artistCells: set<(LinkType, ArtistId, Position)>)

  ghost function RelsOf(ix: Index): Rels {
    Rels(PairsOf(ix.trackPositions), CellPairs(ix.trackMatrix),
         PairsOf(ix.releasePositions), CellPairs(ix.releaseMatrix),
         PairsOf(ix.artistPositions), ArtistCellTriples(ix.artistMatrix))
  }

  ghost function Union(a: Rels, b: Rels): Rels {
    Rels(a.tracks + b.tracks, a.trackCells + b.trackCells, a.releases + b.releases,
         a.releaseCells + b.releaseCells, a.artists + b.artists, a.artistCells + b.artistCells)
  }

  ghost function NoRels(): Rels {
    Rels({}, {}, {}, {}, {}, {})
  }

  /** What one position of one track adds: the track, its release and its
      artists at that position. */
  ghost function PositionContrib(t: TrackId, info: TrackInfo, p: Position): Rels {
    Union(TrackReleaseContrib(t, info, p), LinksContrib(info.artistLinks, p))
  }

  /** What all positions of one track add. */
  ghost function TrackContrib(t: TrackId, info: TrackInfo, ps: seq<Position>): Rels {
    var rel := if info.release.Some? then set p | p in ps :: (info.release.value, p) else {};
    Rels(set p | p in ps :: (t, p), set p | p in ps :: (t, p), rel, rel,
         set l, p | l in info.artistLinks && p in ps :: (l.artist, p),
         set l, p | l in info.artistLinks && p in ps :: (l.linkType, l.artist, p))
  }

  /** What a load adds, stated without reference to the loop: every existing
      track of `order` at each of its positions; the release of such a track
      at each of the track's positions; each artist linked to such a track, in
      the shared positions whatever the link type, and in the matrix of the
      link's type. */
  ghost function CorpusContrib(tp: PositionsMap, order: seq<TrackId>, catalog: Catalog): Rels {
    var tracks := set t, p | t in order && t in catalog && p in PositionsOf(tp, t) :: (t, p);
    var releases := set t, p | t in order && t in catalog && catalog[t].release.Some? && p in PositionsOf(tp, t)
                      :: (catalog[t].release.value, p);
    Rels(tracks, tracks, releases, releases,
         set t, l, p | t in order && t in catalog && l in catalog[t].artistLinks && p in PositionsOf(tp, t) :: (l.artist, p),
         set t, l, p | t in order && t in catalog && l in catalog[t].artistLinks && p in PositionsOf(tp, t)
           :: (l.linkType, l.artist, p))
  }

  /* ---------------- validity and shapes ---------------- */

  ghost predicate ListsNoDup(m: PositionsMap) {
    forall id :: id in m ==> NoDup(m[id])
  }

  ghost predicate CellsNoDup(mx: Matrix) {
    forall p :: p in mx.cells ==> NoDup(mx.cells[p])
  }

  /** Every position list and every matrix cell is duplicate-free. */
  ghost predicate DuplicateFree(ix: Index) {
    && ListsNoDup(ix.trackPositions) && CellsNoDup(ix.trackMatrix)
    && ListsNoDup(ix.releasePositions) && CellsNoDup(ix.releaseMatrix)
    && ListsNoDup(ix.artistPositions)
    && (forall lt :: lt in ix.artistMatrix ==> CellsNoDup(ix.artistMatrix[lt]))
  }

  /** From `a` to `b` the track and release matrices keep their size, no
      artist matrix disappears or changes size, and every new artist matrix
      has size `width` x `height`. */
  ghost predicate ShapesKept(a: Index, b: Index, width: nat, height: nat) {
    && b.trackMatrix.width == a.trackMatrix.width && b.trackMatrix.height == a.trackMatrix.height
    && b.releaseMatrix.width == a.releaseMatrix.width && b.releaseMatrix.height == a.releaseMatrix.height
    && a.artistMatrix.Keys <= b.artistMatrix.Keys
    && (forall lt :: lt in b.artistMatrix ==>
          if lt in a.artistMatrix
          then b.artistMatrix[lt].width == a.artistMatrix[lt].width && b.artistMatrix[lt].height == a.artistMatrix[lt].height
          else b.artistMatrix[lt].width == width && b.artistMatrix[lt].height == height)
  }

  /* ---------------- one step at a time ---------------- */

  lemma PushPairs(m: PositionsMap, id: nat, p: Position)
    ensures PairsOf(Push(m, id, p)) == PairsOf(m) + {(id, p)}
    ensures ListsNoDup(m) ==> ListsNoDup(Push(m, id, p))
  {
    PushPairsSet(m, id, p);
    if ListsNoDup(m) {
      PushNoDup(m, id, p);
    }
  }

  lemma PushNoDup(m: PositionsMap, id: nat, p: Position)
    requires ListsNoDup(m)
    ensures ListsNoDup(Push(m, id, p))
  {
  }

  lemma PushPairsSet(m: PositionsMap, id: nat, p: Position)
    ensures PairsOf(Push(m, id, p)) == PairsOf(m) + {(id, p)}
  {
    var m' := Push(m, id, p);
    forall x | x in PairsOf(m') ensures x in PairsOf(m) + {(id, p)} {
      var (k, q) := x;
      assert k in m' && q in m'[k];
      if k != id {
        assert m'[k] == m[k];
      } else if q != p {
        assert q in PositionsOf(m, id);
        assert id in m && q in m[id];
      }
    }
    forall x | x in PairsOf(m) + {(id, p)} ensures x in PairsOf(m') {
      var (k, q) := x;
      assert k in m' && q in m'[k];
    }
  }

  lemma AddCellPairs(mx: Matrix, p: Position, id: nat)
    ensures CellPairs(mx.Add(p, id)) == CellPairs(mx) + {(id, p)}
    ensures CellsNoDup(mx) ==> CellsNoDup(mx.Add(p, id))
  {
    var mx' := mx.Add(p, id);
    forall x | x in CellPairs(mx') ensures x in CellPairs(mx) + {(id, p)} {
      var (k, q) := x;
      if q != p { assert q in mx.cells && k in mx.cells[q]; }
    }
    forall x | x in CellPairs(mx) + {(id, p)} ensures x in CellPairs(mx') {
      var (k, q) := x;
      assert q in mx'.cells && k in mx'.cells[q];
    }
  }

  lemma AddArtistCell(am: map<LinkType, Matrix>, lt: LinkType, mx: Matrix, p: Position, a: ArtistId)
    requires mx == (if lt in am then am[lt] else EmptyMatrix(mx.width, mx.height))
    ensures ArtistCellTriples(am[lt := mx.Add(p, a)]) == ArtistCellTriples(am) + {(lt, a, p)}
  {
    var am' := am[lt := mx.Add(p, a)];
    forall x | x in ArtistCellTriples(am') ensures x in ArtistCellTriples(am) + {(lt, a, p)} {
      var (l, k, q) := x;
      if l != lt {
        assert l in am && q in am[l].cells && k in am[l].cells[q];
      } else if q != p {
        assert q in mx.cells && k in mx.cells[q];
        assert l in am && q in am[l].cells && k in am[l].cells[q];
      }
    }
    forall x | x in ArtistCellTriples(am) + {(lt, a, p)} ensures x in ArtistCellTriples(am') {
      var (l, k, q) := x;
      if x == (lt, a, p) {
        assert l in am' && q in am'[l].cells && k in am'[l].cells[q];
      } else if l != lt {
        assert l in am' && q in am'[l].cells && k in am'[l].cells[q];
      } else {
        assert q in mx.cells && k in mx.cells[q];
        assert q in mx.Add(p, a).cells && k in mx.Add(p, a).cells[q];
      }
    }
  }

  lemma AddArtistLinkRels(ix: Index, link: ArtistLink, p: Position, width: nat, height: nat)
    ensures RelsOf(AddArtistLink(ix, link, p, width, height))
         == Union(RelsOf(ix), Rels({}, {}, {}, {}, {(link.artist, p)}, {(link.linkType, link.artist, p)}))
  {
    var lt := link.linkType;
    var mx := if lt in ix.artistMatrix then ix.artistMatrix[lt] else EmptyMatrix(width, height);
    PushPairs(ix.artistPositions, link.artist, p);
    AddArtistCell(ix.artistMatrix, lt, mx, p, link.artist);
  }

  lemma AddArtistLinkValid(ix: Index, link: ArtistLink, p: Position, width: nat, height: nat)
    ensures ShapesKept(ix, AddArtistLink(ix, link, p, width, height), width, height)
    ensures DuplicateFree(ix) ==> DuplicateFree(AddArtistLink(ix, link, p, width, height))
  {
    var r := AddArtistLink(ix, link, p, width, height);
    var lt := link.linkType;
    var mx := if lt in ix.artistMatrix then ix.artistMatrix[lt] else EmptyMatrix(width, height);
    assert r.artistMatrix == ix.artistMatrix[lt := mx.Add(p, link.artist)];
    assert ShapesKept(ix, r, width, height) by {
      forall l | l in r.artistMatrix
        ensures if l in ix.artistMatrix
                then r.artistMatrix[l].width == ix.artistMatrix[l].width && r.artistMatrix[l].height == ix.artistMatrix[l].height
                else r.artistMatrix[l].width == width && r.artistMatrix[l].height == height
      {
      }
    }
    if DuplicateFree(ix) {
      assert ListsNoDup(r.artistPositions) by {
        PushPairs(ix.artistPositions, link.artist, p);
      }
      assert forall l :: l in r.artistMatrix ==> CellsNoDup(r.artistMatrix[l]) by {
        AddCellPairs(mx, p, link.artist);
      }
    }
  }

  lemma ShapesKeptTrans(a: Index, b: Index, c: Index, width: nat, height: nat)
    requires ShapesKept(a, b, width, height) && ShapesKept(b, c, width, height)
    ensures ShapesKept(a, c, width, height)
  {
    forall lt | lt in c.artistMatrix
      ensures if lt in a.artistMatrix
              then c.artistMatrix[lt].width == a.artistMatrix[lt].width && c.artistMatrix[lt].height == a.artistMatrix[lt].height
              else c.artistMatrix[lt].width == width && c.artistMatrix[lt].height == height
    {
      if lt in a.artistMatrix { assert lt in b.artistMatrix; }
    }
  }

  /* ---------------- induction over the loops ---------------- */

  lemma {:induction false} AddArtistLinksRels(ix: Index, links: seq<ArtistLink>, p: Position, width: nat, height: nat)
    ensures RelsOf(AddArtistLinks(ix, links, p, width, height)) == Union(RelsOf(ix), LinksContrib(links, p))
  {
    if |links| > 0 {
      var init := links[..|links| - 1];
      var last := links[|links| - 1];
      var prev := AddArtistLinks(ix, init, p, width, height);
      AddArtistLinksRels(ix, init, p, width, height);
      AddArtistLinkRels(prev, last, p, width, height);
      LinksContribStep(links, p);
      UnionAssoc(RelsOf(ix), LinksContrib(init, p), Rels({}, {}, {}, {}, {(last.artist, p)}, {(last.linkType, last.artist, p)}));
    }
  }

  lemma UnionNoRels(a: Rels)
    ensures Union(a, NoRels()) == a
  {
  }

  lemma UnionAssoc(a: Rels, b: Rels, c: Rels)
    ensures Union(Union(a, b), c) == Union(a, Union(b, c))
  {
  }

  ghost function LinksContrib(links: seq<ArtistLink>, p: Position): Rels {
    Rels({}, {}, {}, {}, set l | l in links :: (l.artist, p), set l | l in links :: (l.linkType, l.artist, p))
  }

  lemma LinksContribStep(links: seq<ArtistLink>, p: Position)
    requires |links| > 0
    ensures LinksContrib(links, p)
         == Union(LinksContrib(links[..|links| - 1], p),
                  Rels({}, {}, {}, {}, {(links[|links| - 1].artist, p)}, {(links[|links| - 1].linkType, links[|links| - 1].artist, p)}))
  {
    var init := links[..|links| - 1];
    assert links == init + [links[|links| - 1]];
  }

  lemma {:induction false} AddArtistLinksValid(ix: Index, links: seq<ArtistLink>, p: Position, width: nat, height: nat)
    ensures ShapesKept(ix, AddArtistLinks(ix, links, p, width, height), width, height)
    ensures DuplicateFree(ix) ==> DuplicateFree(AddArtistLinks(ix, links, p, width, height))
  {
    if |links| > 0 {
      var init := links[..|links| - 1];
      var prev := AddArtistLinks(ix, init, p, width, height);
      AddArtistLinksValid(ix, init, p, width, height);
      AddArtistLinkValid(prev, links[|links| - 1], p, width, height);
      ShapesKeptTrans(ix, prev, AddArtistLinks(ix, links, p, width, height), width, height);
    }
  }

  ghost function TrackReleaseContrib(t: TrackId, info: TrackInfo, p: Position): Rels {
    match info.release
    case None => TrackOnlyContrib(t, p)
    case Some(rel) => Union(TrackOnlyContrib(t, p), ReleaseOnlyContrib(rel, p))
  }

  ghost function TrackOnlyContrib(t: TrackId, p: Position): Rels {
    Rels({(t, p)}, {(t, p)}, {}, {}, {}, {})
  }

  ghost function ReleaseOnlyContrib(rel: ReleaseId, p: Position): Rels {
    Rels({}, {}, {(rel, p)}, {(rel, p)}, {}, {})
  }

  lemma AddTrackAndReleaseRels(ix: Index, t: TrackId, info: TrackInfo, p: Position)
    ensures RelsOf(AddTrackAndRelease(ix, t, info, p)) == Union(RelsOf(ix), TrackReleaseContrib(t, info, p))
  {
    var w := ix.(trackPositions := Push(ix.trackPositions, t, p), trackMatrix := ix.trackMatrix.Add(p, t));
    AddTrackOnlyRels(ix, t, p);
    match info.release
    case None =>
      assert AddTrackAndRelease(ix, t, info, p) == w;
    case Some(rel) =>
      var wr := w.(releasePositions := Push(w.releasePositions, rel, p), releaseMatrix := w.releaseMatrix.Add(p, rel));
      assert AddTrackAndRelease(ix, t, info, p) == wr;
      AddReleaseOnlyRels(w, rel, p);
      UnionAssoc(RelsOf(ix), TrackOnlyContrib(t, p), ReleaseOnlyContrib(rel, p));
  }

  lemma AddTrackOnlyRels(ix: Index, t: TrackId, p: Position)
    ensures RelsOf(ix.(trackPositions := Push(ix.trackPositions, t, p), trackMatrix := ix.trackMatrix.Add(p, t)))
         == Union(RelsOf(ix), TrackOnlyContrib(t, p))
  {
    PushPairs(ix.trackPositions, t, p);
    AddCellPairs(ix.trackMatrix, p, t);
  }

  lemma AddReleaseOnlyRels(ix: Index, rel: ReleaseId, p: Position)
    ensures RelsOf(ix.(releasePositions := Push(ix.releasePositions, rel, p), releaseMatrix := ix.releaseMatrix.Add(p, rel)))
         == Union(RelsOf(ix), ReleaseOnlyContrib(rel, p))
  {
    PushPairs(ix.releasePositions, rel, p);
    AddCellPairs(ix.releaseMatrix, p, rel);
  }

  lemma AddPositionRels(ix: Index, t: TrackId, info: TrackInfo, p: Position, width: nat, height: nat)
    ensures RelsOf(AddPosition(ix, t, info, p, width, height)) == Union(RelsOf(ix), PositionContrib(t, info, p))
  {
    var mid := AddTrackAndRelease(ix, t, info, p);
    AddTrackAndReleaseRels(ix, t, info, p);
    AddArtistLinksRels(mid, info.artistLinks, p, width, height);
    UnionAssoc(RelsOf(ix), TrackReleaseContrib(t, info, p), LinksContrib(info.artistLinks, p));
  }

  lemma AddPositionValid(ix: Index, t: TrackId, info: TrackInfo, p: Position, width: nat, height: nat)
    ensures ShapesKept(ix, AddPosition(ix, t, info, p, width, height), width, height)
    ensures DuplicateFree(ix) ==> DuplicateFree(AddPosition(ix, t, info, p, width, height))
  {
    var mid := AddTrackAndRelease(ix, t, info, p);
    PushPairs(ix.trackPositions, t, p);
    AddCellPairs(ix.trackMatrix, p, t);
    if info.release.Some? {
      PushPairs(ix.releasePositions, info.release.value, p);
      AddCellPairs(ix.releaseMatrix, p, info.release.value);
    }
    assert ShapesKept(ix, mid, width, height);
    AddArtistLinksValid(mid, info.artistLinks, p, width, height);
    ShapesKeptTrans(ix, mid, AddPosition(ix, t, info, p, width, height), width, height);
  }

  /** The contributions of the positions of one track add up position by
      position. */
  lemma TrackContribStep(t: TrackId, info: TrackInfo, ps: seq<Position>)
    requires |ps| > 0
    ensures TrackContrib(t, info, ps)
         == Union(TrackContrib(t, info, ps[..|ps| - 1]), PositionContrib(t, info, ps[|ps| - 1]))
  {
    var init := ps[..|ps| - 1];
    var last := ps[|ps| - 1];
    assert ps == init + [last];
    var a := TrackContrib(t, info, ps);
    var b := TrackContrib(t, info, init);
    var c := PositionContrib(t, info, last);
    assert a.tracks == b.tracks + c.tracks && a.trackCells == b.trackCells + c.trackCells by {
      PairsStep(t, ps);
    }
    assert a.releases == b.releases + c.releases && a.releaseCells == b.releaseCells + c.releaseCells by {
      if info.release.Some? {
        PairsStep(info.release.value, ps);
      }
    }
    assert a.artists == b.artists + c.artists by {
      TrackArtistsStep(info.artistLinks, ps);
    }
    assert a.artistCells == b.artistCells + c.artistCells by {
      TrackArtistCellsStep(info.artistLinks, ps);
    }
  }

  lemma PairsStep(id: nat, ps: seq<Position>)
    requires |ps| > 0
    ensures (set p | p in ps :: (id, p)) == (set p | p in ps[..|ps| - 1] :: (id, p)) + {(id, ps[|ps| - 1])}
  {
    assert ps == ps[..|ps| - 1] + [ps[|ps| - 1]];
  }

  lemma TrackArtistsStep(links: seq<ArtistLink>, ps: seq<Position>)
    requires |ps| > 0
    ensures (set l, p | l in links && p in ps :: (l.artist, p))
         == (set l, p | l in links && p in ps[..|ps| - 1] :: (l.artist, p)) + (set l | l in links :: (l.artist, ps[|ps| - 1]))
  {
    var init := ps[..|ps| - 1];
    var last := ps[|ps| - 1];
    assert ps == init + [last];
    var whole := set l, p | l in links && p in ps :: (l.artist, p);
    var before := set l, p | l in links && p in init :: (l.artist, p);
    var here := set l | l in links :: (l.artist, last);
    forall x | x in whole ensures x in before + here {
      var l, p :| l in links && p in ps && x == (l.artist, p);
      if p != last { assert p in init; }
    }
    forall x | x in before ensures x in whole {
      var l, p :| l in links && p in init && x == (l.artist, p);
      assert p in ps;
    }
    forall x | x in here ensures x in whole {
      var l :| l in links && x == (l.artist, last);
      assert last in ps;
    }
  }

  lemma TrackArtistCellsStep(links: seq<ArtistLink>, ps: seq<Position>)
    requires |ps| > 0
    ensures (set l, p | l in links && p in ps :: (l.linkType, l.artist, p))
         == (set l, p | l in links && p in ps[..|ps| - 1] :: (l.linkType, l.artist, p)) + (set l | l in links :: (l.linkType, l.artist, ps[|ps| - 1]))
  {
    var init := ps[..|ps| - 1];
    var last := ps[|ps| - 1];
    assert ps == init + [last];
    var whole := set l, p | l in links && p in ps :: (l.linkType, l.artist, p);
    var before := set l, p | l in links && p in init :: (l.linkType, l.artist, p);
    var here := set l | l in links :: (l.linkType, l.artist, last);
    forall x | x in whole ensures x in before + here {
      var l, p :| l in links && p in ps && x == (l.linkType, l.artist, p);
      if p != last { assert p in init; }
    }
    forall x | x in before ensures x in whole {
      var l, p :| l in links && p in init && x == (l.linkType, l.artist, p);
      assert p in ps;
    }
    forall x | x in here ensures x in whole {
      var l :| l in links && x == (l.linkType, l.artist, last);
      assert last in ps;
    }
  }

  lemma {:induction false} AddTrackRels(ix: Index, t: TrackId, info: TrackInfo, ps: seq<Position>, width: nat, height: nat)
    ensures RelsOf(AddTrack(ix, t, info, ps, width, height)) == Union(RelsOf(ix), TrackContrib(t, info, ps))
  {
    if |ps| > 0 {
      var init := ps[..|ps| - 1];
      var prev := AddTrack(ix, t, info, init, width, height);
      AddTrackRels(ix, t, info, init, width, height);
      AddPositionRels(prev, t, info, ps[|ps| - 1], width, height);
      TrackContribStep(t, info, ps);
      UnionAssoc(RelsOf(ix), TrackContrib(t, info, init), PositionContrib(t, info, ps[|ps| - 1]));
    }
  }

  lemma {:induction false} AddTrackValid(ix: Index, t: TrackId, info: TrackInfo, ps: seq<Position>, width: nat, height: nat)
    ensures ShapesKept(ix, AddTrack(ix, t, info, ps, width, height), width, height)
    ensures DuplicateFree(ix) ==> DuplicateFree(AddTrack(ix, t, info, ps, width, height))
  {
    if |ps| > 0 {
      var init := ps[..|ps| - 1];
      var prev := AddTrack(ix, t, info, init, width, height);
      AddTrackValid(ix, t, info, init, width, height);
      AddPositionValid(prev, t, info, ps[|ps| - 1], width, height);
      ShapesKeptTrans(ix, prev, AddTrack(ix, t, info, ps, width, height), width, height);
    }
  }

  /** What the track `t` adds when the loop reaches it: nothing if it no
      longer exists. */
  ghost function ExistingTrackContrib(tp: PositionsMap, t: TrackId, catalog: Catalog): Rels {
    if t in catalog then TrackContrib(t, catalog[t], PositionsOf(tp, t)) else NoRels()
  }

  /** The contributions of the tracks of the map add up track by track. */
  lemma CorpusContribStep(tp: PositionsMap, order: seq<TrackId>, catalog: Catalog)
    requires |order| > 0
    ensures CorpusContrib(tp, order, catalog)
         == Union(CorpusContrib(tp, order[..|order| - 1], catalog), ExistingTrackContrib(tp, order[|order| - 1], catalog))
  {
    var init := order[..|order| - 1];
    var t := order[|order| - 1];
    var a := CorpusContrib(tp, order, catalog);
    var b := CorpusContrib(tp, init, catalog);
    var c := ExistingTrackContrib(tp, t, catalog);
    assert order == init + [t];
    assert a.tracks == b.tracks + c.tracks;
    assert a.releases == b.releases + c.releases;
    assert a.artists == b.artists + c.artists by {
      CorpusArtistsStep(tp, order, catalog);
    }
    assert a.artistCells == b.artistCells + c.artistCells by {
      CorpusArtistCellsStep(tp, order, catalog);
    }
  }

  lemma CorpusArtistsStep(tp: PositionsMap, order: seq<TrackId>, catalog: Catalog)
    requires |order| > 0
    ensures CorpusContrib(tp, order, catalog).artists
         == CorpusContrib(tp, order[..|order| - 1], catalog).artists + ExistingTrackContrib(tp, order[|order| - 1], catalog).artists
  {
    var init := order[..|order| - 1];
    var t := order[|order| - 1];
    assert order == init + [t];
    var a := CorpusContrib(tp, order, catalog);
    var b := CorpusContrib(tp, init, catalog);
    var c := ExistingTrackContrib(tp, t, catalog);
    forall x | x in a.artists ensures x in b.artists + c.artists {
      var u, l, p :| u in order && u in catalog && l in catalog[u].artistLinks && p in PositionsOf(tp, u) && x == (l.artist, p);
      if u != t { assert u in init; }
    }
    forall x | x in c.artists ensures x in a.artists {
      var l, p :| l in catalog[t].artistLinks && p in PositionsOf(tp, t) && x == (l.artist, p);
    }
  }

  lemma CorpusArtistCellsStep(tp: PositionsMap, order: seq<TrackId>, catalog: Catalog)
    requires |order| > 0
    ensures CorpusContrib(tp, order, catalog).artistCells
         == CorpusContrib(tp, order[..|order| - 1], catalog).artistCells + ExistingTrackContrib(tp, order[|order| - 1], catalog).artistCells
  {
    var init := order[..|order| - 1];
    var t := order[|order| - 1];
    assert order == init + [t];
    var a := CorpusContrib(tp, order, catalog);
    var b := CorpusContrib(tp, init, catalog);
    var c := ExistingTrackContrib(tp, t, catalog);
    forall x | x in a.artistCells ensures x in b.artistCells + c.artistCells {
      var u, l, p :| u in order && u in catalog && l in catalog[u].artistLinks && p in PositionsOf(tp, u) && x == (l.linkType, l.artist, p);
      if u != t { assert u in init; }
    }
    forall x | x in c.artistCells ensures x in a.artistCells {
      var l, p :| l in catalog[t].artistLinks && p in PositionsOf(tp, t) && x == (l.linkType, l.artist, p);
    }
  }

  lemma {:induction false} IndexTracksRels(ix: Index, tp: PositionsMap, order: seq<TrackId>, catalog: Catalog, width: nat, height: nat)
    ensures RelsOf(IndexTracks(ix, tp, order, catalog, width, height)) == Union(RelsOf(ix), CorpusContrib(tp, order, catalog))
  {
    if |order| == 0 {
      assert CorpusContrib(tp, order, catalog) == NoRels() by {
        assert forall t :: t !in order;
      }
      UnionNoRels(RelsOf(ix));
    } else {
      var init := order[..|order| - 1];
      var t := order[|order| - 1];
      var prev := IndexTracks(ix, tp, init, catalog, width, height);
      var before := CorpusContrib(tp, init, catalog);
      var added := ExistingTrackContrib(tp, t, catalog);
      IndexTracksRels(ix, tp, init, catalog, width, height);
      CorpusContribStep(tp, order, catalog);
      if t in catalog {
        assert IndexTracks(ix, tp, order, catalog, width, height) == AddTrack(prev, t, catalog[t], PositionsOf(tp, t), width, height);
        AddTrackRels(prev, t, catalog[t], PositionsOf(tp, t), width, height);
        UnionAssoc(RelsOf(ix), before, added);
      } else {
        assert IndexTracks(ix, tp, order, catalog, width, height) == prev;
        UnionNoRels(before);
      }
    }
  }

  lemma {:induction false} IndexTracksValid(ix: Index, tp: PositionsMap, order: seq<TrackId>, catalog: Catalog, width: nat, height: nat)
    ensures ShapesKept(ix, IndexTracks(ix, tp, order, catalog, width, height), width, height)
    ensures DuplicateFree(ix) ==> DuplicateFree(IndexTracks(ix, tp, order, catalog, width, height))
  {
    if |order| > 0 {
      var init := order[..|order| - 1];
      var t := order[|order| - 1];
      var prev := IndexTracks(ix, tp, init, catalog, width, height);
      IndexTracksValid(ix, tp, init, catalog, width, height);
      if t in catalog {
        AddTrackValid(prev, t, catalog[t], PositionsOf(tp, t), width, height);
        ShapesKeptTrans(ix, prev, IndexTracks(ix, tp, order, catalog, width, height), width, height);
      }
    }
  }

  /* ---------------- what a load builds ---------------- */

  lemma PairsOfMember(m: PositionsMap, id: nat, p: Position)
    ensures (id, p) in PairsOf(m) <==> p in PositionsOf(m, id)
  {
    if p in PositionsOf(m, id) { assert id in m && p in m[id]; }
  }

  lemma CellPairsMember(mx: Matrix, id: nat, p: Position)
    ensures (id, p) in CellPairs(mx) <==> id in mx.Cell(p)
  {
    if id in mx.Cell(p) { assert p in mx.cells && id in mx.cells[p]; }
  }

  lemma ArtistCellMember(am: map<LinkType, Matrix>, lt: LinkType, a: ArtistId, p: Position)
    ensures (lt, a, p) in ArtistCellTriples(am) <==> lt in am && a in am[lt].Cell(p)
  {
    if lt in am && a in am[lt].Cell(p) { assert p in am[lt].cells && a in am[lt].cells[p]; }
  }

  lemma LoadedRels(ix: Index, width: nat, height: nat, tp: PositionsMap, order: seq<TrackId>, catalog: Catalog)
    ensures RelsOf(LoadedIndex(ix, width, height, tp, order, catalog))
         == Union(RelsOf(ix).(trackCells := {}, releaseCells := {}), CorpusContrib(tp, order, catalog))
  {
    var reset := ResetMatrices(ix, width, height);
    IndexTracksRels(reset, tp, order, catalog, width, height);
    assert CellPairs(EmptyMatrix(width, height)) == {};
  }

  /** After a load, track `t` is in cell `p` of the track matrix exactly when
      `t` still exists and `p` is one of its positions in the loaded map, and
      `p` is then among the positions recorded for `t`; those also keep every
      position recorded by earlier loads. */
  lemma LoadedTracks(ix: Index, width: nat, height: nat, tp: PositionsMap, order: seq<TrackId>, catalog: Catalog, t: TrackId, p: Position)
    ensures t in LoadedIndex(ix, width, height, tp, order, catalog).trackMatrix.Cell(p)
        <==> t in order && t in catalog && p in PositionsOf(tp, t)
    ensures p in PositionsOf(LoadedIndex(ix, width, height, tp, order, catalog).trackPositions, t)
        <==> p in PositionsOf(ix.trackPositions, t) || (t in order && t in catalog && p in PositionsOf(tp, t))
  {
    var ix' := LoadedIndex(ix, width, height, tp, order, catalog);
    LoadedRels(ix, width, height, tp, order, catalog);
    CellPairsMember(ix'.trackMatrix, t, p);
    PairsOfMember(ix'.trackPositions, t, p);
    PairsOfMember(ix.trackPositions, t, p);
    if t in order && t in catalog && p in PositionsOf(tp, t) {
      assert (t, p) in CorpusContrib(tp, order, catalog).tracks;
    }
  }

  /** On an engine that has no track positions yet (a first load), the track
      matrix and the track positions describe the same relation. */
  lemma FirstLoadTrackMatrixMatchesPositions(ix: Index, width: nat, height: nat, tp: PositionsMap, order: seq<TrackId>, catalog: Catalog, t: TrackId, p: Position)
    requires ix.trackPositions == map[]
    ensures t in LoadedIndex(ix, width, height, tp, order, catalog).trackMatrix.Cell(p)
        <==> p in PositionsOf(LoadedIndex(ix, width, height, tp, order, catalog).trackPositions, t)
  {
    LoadedTracks(ix, width, height, tp, order, catalog, t, p);
  }

  /** Each release collects the positions of its existing tracks, on top of
      those of earlier loads; its matrix cells hold only this load's. */
  lemma LoadedReleases(ix: Index, width: nat, height: nat, tp: PositionsMap, order: seq<TrackId>, catalog: Catalog, r: ReleaseId, p: Position)
    ensures r in LoadedIndex(ix, width, height, tp, order, catalog).releaseMatrix.Cell(p)
        <==> exists t :: t in order && t in catalog && catalog[t].release == Some(r) && p in PositionsOf(tp, t)
    ensures p in PositionsOf(LoadedIndex(ix, width, height, tp, order, catalog).releasePositions, r)
        <==> p in PositionsOf(ix.releasePositions, r)
             || exists t :: t in order && t in catalog && catalog[t].release == Some(r) && p in PositionsOf(tp, t)
  {
    var ix' := LoadedIndex(ix, width, height, tp, order, catalog);
    LoadedRels(ix, width, height, tp, order, catalog);
    CellPairsMember(ix'.releaseMatrix, r, p);
    PairsOfMember(ix'.releasePositions, r, p);
    PairsOfMember(ix.releasePositions, r, p);
    var c := CorpusContrib(tp, order, catalog);
    if exists t :: t in order && t in catalog && catalog[t].release == Some(r) && p in PositionsOf(tp, t) {
      var t :| t in order && t in catalog && catalog[t].release == Some(r) && p in PositionsOf(tp, t);
      assert (r, p) in c.releases;
    }
  }

  /** An artist linked to an existing track is placed at the track's
      positions: in the shared artist positions whatever the link type, and in
      the matrix of the link's type. Earlier loads' artist entries stay. */
  lemma LoadedArtists(ix: Index, width: nat, height: nat, tp: PositionsMap, order: seq<TrackId>, catalog: Catalog, a: ArtistId, lt: LinkType, p: Position)
    ensures p in PositionsOf(LoadedIndex(ix, width, height, tp, order, catalog).artistPositions, a)
        <==> p in PositionsOf(ix.artistPositions, a)
             || exists t, l :: t in order && t in catalog && l in catalog[t].artistLinks && l.artist == a && p in PositionsOf(tp, t)
    ensures (lt in LoadedIndex(ix, width, height, tp, order, catalog).artistMatrix
             && a in LoadedIndex(ix, width, height, tp, order, catalog).artistMatrix[lt].Cell(p))
        <==> (lt in ix.artistMatrix && a in ix.artistMatrix[lt].Cell(p))
             || exists t :: t in order && t in catalog && ArtistLink(a, lt) in catalog[t].artistLinks && p in PositionsOf(tp, t)
  {
    LoadedRels(ix, width, height, tp, order, catalog);
    LoadedArtistPositions(ix, width, height, tp, order, catalog, a, p);
    LoadedArtistCells(ix, width, height, tp, order, catalog, a, lt, p);
  }

  lemma LoadedArtistPositions(ix: Index, width: nat, height: nat, tp: PositionsMap, order: seq<TrackId>, catalog: Catalog, a: ArtistId, p: Position)
    requires RelsOf(LoadedIndex(ix, width, height, tp, order, catalog))
          == Union(RelsOf(ix).(trackCells := {}, releaseCells := {}), CorpusContrib(tp, order, catalog))
    ensures p in PositionsOf(LoadedIndex(ix, width, height, tp, order, catalog).artistPositions, a)
        <==> p in PositionsOf(ix.artistPositions, a)
             || exists t, l :: t in order && t in catalog && l in catalog[t].artistLinks && l.artist == a && p in PositionsOf(tp, t)
  {
    var ix' := LoadedIndex(ix, width, height, tp, order, catalog);
    PairsOfMember(ix'.artistPositions, a, p);
    PairsOfMember(ix.artistPositions, a, p);
    var c := CorpusContrib(tp, order, catalog);
    if exists t, l :: t in order && t in catalog && l in catalog[t].artistLinks && l.artist == a && p in PositionsOf(tp, t) {
      var t, l :| t in order && t in catalog && l in catalog[t].artistLinks && l.artist == a && p in PositionsOf(tp, t);
      assert (a, p) in c.artists;
    }
    if (a, p) in c.artists {
      var t, l, q :| t in order && t in catalog && l in catalog[t].artistLinks && q in PositionsOf(tp, t) && (a, p) == (l.artist, q);
    }
  }

  lemma LoadedArtistCells(ix: Index, width: nat, height: nat, tp: PositionsMap, order: seq<TrackId>, catalog: Catalog, a: ArtistId, lt: LinkType, p: Position)
    requires RelsOf(LoadedIndex(ix, width, height, tp, order, catalog))
          == Union(RelsOf(ix).(trackCells := {}, releaseCells := {}), CorpusContrib(tp, order, catalog))
    ensures (lt in LoadedIndex(ix, width, height, tp, order, catalog).artistMatrix
             && a in LoadedIndex(ix, width, height, tp, order, catalog).artistMatrix[lt].Cell(p))
        <==> (lt in ix.artistMatrix && a in ix.artistMatrix[lt].Cell(p))
             || exists t :: t in order && t in catalog && ArtistLink(a, lt) in catalog[t].artistLinks && p in PositionsOf(tp, t)
  {
    var ix' := LoadedIndex(ix, width, height, tp, order, catalog);
    ArtistCellMember(ix'.artistMatrix, lt, a, p);
    ArtistCellMember(ix.artistMatrix, lt, a, p);
    var c := CorpusContrib(tp, order, catalog);
    if exists t :: t in order && t in catalog && ArtistLink(a, lt) in catalog[t].artistLinks && p in PositionsOf(tp, t) {
      var t :| t in order && t in catalog && ArtistLink(a, lt) in catalog[t].artistLinks && p in PositionsOf(tp, t);
      assert (lt, a, p) in c.artistCells;
    }
    if (lt, a, p) in c.artistCells {
      var t, l, q :| t in order && t in catalog && l in catalog[t].artistLinks && q in PositionsOf(tp, t)
                     && (lt, a, p) == (l.linkType, l.artist, q);
      assert l == ArtistLink(a, lt);
    }
  }

  /** A load keeps every list and cell duplicate-free, sizes the track and
      release matrices after the network, leaves every existing artist matrix
      at the size it was created with, and gives the network's size to the
      artist matrix of a link type seen for the first time. */
  lemma LoadedShapes(ix: Index, width: nat, height: nat, tp: PositionsMap, order: seq<TrackId>, catalog: Catalog)
    ensures DuplicateFree(ix) ==> DuplicateFree(LoadedIndex(ix, width, height, tp, order, catalog))
    ensures LoadedIndex(ix, width, height, tp, order, catalog).trackMatrix.width == width
    ensures LoadedIndex(ix, width, height, tp, order, catalog).trackMatrix.height == height
    ensures LoadedIndex(ix, width, height, tp, order, catalog).releaseMatrix.width == width
    ensures LoadedIndex(ix, width, height, tp, order, catalog).releaseMatrix.height == height
    ensures ShapesKept(ResetMatrices(ix, width, height), LoadedIndex(ix, width, height, tp, order, catalog), width, height)
  {
    IndexTracksValid(ResetMatrices(ix, width, height), tp, order, catalog, width, height);
  }

  /* ---------------- positions map round trip ---------------- */

  lemma {:induction false} AddArtistLinksKeepsTracks(ix: Index, links: seq<ArtistLink>, p: Position, width: nat, height: nat)
    ensures AddArtistLinks(ix, links, p, width, height).trackPositions == ix.trackPositions
  {
    if |links| > 0 {
      AddArtistLinksKeepsTracks(ix, links[..|links| - 1], p, width, height);
    }
  }

  /** The positions of a track not yet in the map are recorded in their own
      order when they are all different. */
  lemma {:induction false} AddTrackPositions(ix: Index, t: TrackId, info: TrackInfo, ps: seq<Position>, width: nat, height: nat)
    requires t !in ix.trackPositions && |ps| > 0 && NoDup(ps)
    ensures AddTrack(ix, t, info, ps, width, height).trackPositions == ix.trackPositions[t := ps]
  {
    var init := ps[..|ps| - 1];
    var last := ps[|ps| - 1];
    PushLast(ps);
    var prev := AddTrack(ix, t, info, init, width, height);
    var m := ix.trackPositions;
    if |init| > 0 {
      AddTrackPositions(ix, t, info, init, width, height);
      UpdateTwice(m, t, init, ps);
    }
    assert PositionsOf(prev.trackPositions, t) == init;
    AddPositionTracks(prev, t, info, last, width, height);
  }

  lemma UpdateTwice(m: PositionsMap, k: nat, a: seq<Position>, b: seq<Position>)
    ensures m[k := a][k := b] == m[k := b]
  {
  }

  lemma AddPositionTracks(ix: Index, t: TrackId, info: TrackInfo, p: Position, width: nat, height: nat)
    ensures AddPosition(ix, t, info, p, width, height).trackPositions == Push(ix.trackPositions, t, p)
  {
    AddArtistLinksKeepsTracks(AddTrackAndRelease(ix, t, info, p), info.artistLinks, p, width, height);
  }

  /** Pushing the last element of a duplicate-free list back onto the rest
      gives the list. */
  lemma PushLast<T(!new)>(s: seq<T>)
    requires |s| > 0 && NoDup(s)
    ensures NoDup(s[..|s| - 1])
    ensures PushIfAbsent(s[..|s| - 1], s[|s| - 1]) == s
  {
    assert s == s[..|s| - 1] + [s[|s| - 1]];
  }

  /** The map of the tracks of `order` to their positions in `tp`. */
  ghost function Restrict(tp: PositionsMap, order: seq<TrackId>): PositionsMap
    requires forall t :: t in order ==> t in tp
  {
    map t | t in order :: tp[t]
  }

  lemma RestrictStep(tp: PositionsMap, order: seq<TrackId>)
    requires |order| > 0 && forall t :: t in order ==> t in tp
    ensures Restrict(tp, order) == Restrict(tp, order[..|order| - 1])[order[|order| - 1] := tp[order[|order| - 1]]]
  {
    assert order == order[..|order| - 1] + [order[|order| - 1]];
  }

  lemma {:induction false} IndexTracksPositions(ix: Index, tp: PositionsMap, order: seq<TrackId>, catalog: Catalog, width: nat, height: nat)
    requires NoDup(order)
    requires forall t :: t in order ==> t !in ix.trackPositions && t in catalog && t in tp && |tp[t]| > 0 && NoDup(tp[t])
    ensures IndexTracks(ix, tp, order, catalog, width, height).trackPositions == ix.trackPositions + Restrict(tp, order)
  {
    if |order| > 0 {
      var init := order[..|order| - 1];
      var t := order[|order| - 1];
      PushLast(order);
      IndexTracksPositions(ix, tp, init, catalog, width, height);
      var prev := IndexTracks(ix, tp, init, catalog, width, height);
      assert t !in prev.trackPositions;
      AddTrackPositions(prev, t, catalog[t], tp[t], width, height);
      RestrictStep(tp, order);
      MergeUpdate(ix.trackPositions, Restrict(tp, init), t, tp[t]);
    }
  }

  lemma MergeUpdate(a: PositionsMap, b: PositionsMap, k: nat, v: seq<Position>)
    ensures (a + b)[k := v] == a + b[k := v]
  {
  }

  /** Loading a positions map into an engine that has none yet records
      exactly that map, provided every track still exists and every track has
      at least one position, none twice: what `toCache` saves, a reload from
      the cache restores. */
  lemma ReloadRestoresPositions(tp: PositionsMap, order: seq<TrackId>, catalog: Catalog, width: nat, height: nat)
    requires NoDup(order) && forall t :: t in order <==> t in tp
    requires forall t :: t in tp ==> t in catalog && |tp[t]| > 0 && NoDup(tp[t])
    ensures LoadedIndex(EmptyIndex(), width, height, tp, order, catalog).trackPositions == tp
  {
    var start := ResetMatrices(EmptyIndex(), width, height);
    assert LoadedIndex(EmptyIndex(), width, height, tp, order, catalog).trackPositions == map[] + Restrict(tp, order) by {
      assert start.trackPositions == map[];
      IndexTracksPositions(start, tp, order, catalog, width, height);
    }
    RestrictAll(tp, order);
  }

  lemma RestrictAll(tp: PositionsMap, order: seq<TrackId>)
    requires forall t :: t in order <==> t in tp
    ensures map[] + Restrict(tp, order) == tp
  {
    assert Restrict(tp, order).Keys == tp.Keys;
  }

  /** A second load keeps the positions of the first one in the track
      positions, but not in the track matrix, which it resets: the two no
      longer describe the same relation. */
  lemma ReloadKeepsStalePositions()
    ensures var info := map[7 := TrackInfo(None, [])];
            var first := LoadedIndex(EmptyIndex(), 2, 2, map[7 := [Position(0, 0)]], [7], info);
            var second := LoadedIndex(first, 2, 2, map[7 := [Position(1, 1)]], [7], info);
            && Position(0, 0) in PositionsOf(second.trackPositions, 7)
            && 7 !in second.trackMatrix.Cell(Position(0, 0))
  {
    var info := map[7 := TrackInfo(None, [])];
    var first := LoadedIndex(EmptyIndex(), 2, 2, map[7 := [Position(0, 0)]], [7], info);
    LoadedTracks(EmptyIndex(), 2, 2, map[7 := [Position(0, 0)]], [7], info, 7, Position(0, 0));
    LoadedTracks(first, 2, 2, map[7 := [Position(1, 1)]], [7], info, 7, Position(0, 0));
  }
}
