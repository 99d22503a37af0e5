/** The Subsonic album response node (responses/Album.cpp): the names the
    release types are sent under, and the attributes `createAlbumNode` puts
    on the node depending on the id3 flag, the release's artists and the
    OpenSubsonic extension.

    The database reads the function makes (name, counts, dates, artists,
    clusters, listens, stars) are the fields of `AlbumSource`; the string
    renderings of dates and ids and the artist-name joiner are outside the
    model, their results come in as fields and as `Context.joinArtistNames`. */
module SubsonicAlbum {
  import opened Wrappers
  import opened ClusterGroups

  datatype PrimaryType = Album | Broadcast | EP | Single | Other
  datatype SecondaryType =
    | Audiobook | AudioDrama | Compilation | Demo | DJMix | Interview
    | Live | MixtapeStreet | Remix | Soundtrack | Spokenword

  predicate IsLowerName(s: string) {
    |s| > 0 && forall c :: c in s ==> 'a' <= c <= 'z'
  }

  /** `toString(ReleaseTypePrimary)`: the lowercase name of the type. */
  function PrimaryTypeName(t: PrimaryType): (r: string)
    ensures IsLowerName(r)
  {
    match t
    case Album => "album"
    case Broadcast => "broadcast"
    case EP => "ep"
    case Single => "single"
    case Other => "other"
  }

  /** No two primary types share a name. */
  lemma PrimaryTypeNameInjective(a: PrimaryType, b: PrimaryType)
    requires PrimaryTypeName(a) == PrimaryTypeName(b)
    ensures a == b
  {
    var r := PrimaryTypeName(a);
    assert r[0] == PrimaryTypeName(b)[0];
    if r[0] == 'o' || r[0] == 'a' {
      assert |r| == |PrimaryTypeName(b)|;
    }
  }

  /** `toString(ReleaseTypeSecondary)` as written: `Spokenword` is sent as
      "soundtrack". */
  function SecondaryTypeNameAsWritten(t: SecondaryType): (r: string)
    ensures IsLowerName(r)
    ensures t != Spokenword ==> r == SecondaryTypeName(t)
  {
    match t
    case Spokenword => "soundtrack"
    case _ => SecondaryTypeName(t)
  }

  /** As written, a spoken-word release and a soundtrack are reported with
      the same release type. */
  lemma SecondaryTypeNameAsWrittenCollides()
    ensures Spokenword != Soundtrack
    ensures SecondaryTypeNameAsWritten(Spokenword) == SecondaryTypeNameAsWritten(Soundtrack)
  {
  }

  /** The secondary type names as intended: each type's own lowercase name. */
  function SecondaryTypeName(t: SecondaryType): (r: string)
    ensures IsLowerName(r)
  {
    match t
    case Audiobook => "audiobook"
    case AudioDrama => "audiodrama"
    case Compilation => "compilation"
    case Demo => "demo"
    case DJMix => "djmix"
    case Interview => "interview"
    case Live => "live"
    case MixtapeStreet => "mixtapestreet"
    case Remix => "remix"
    case Soundtrack => "soundtrack"
    case Spokenword => "spokenword"
  }

  /** No two secondary types share an intended name. */
  lemma SecondaryTypeNameInjective(a: SecondaryType, b: SecondaryType)
    requires SecondaryTypeName(a) == SecondaryTypeName(b)
    ensures a == b
  {
    var r, s := SecondaryTypeName(a), SecondaryTypeName(b);
    assert |r| == |s| && r[0] == s[0];
    if |r| > 1 { assert r[1] == s[1]; }
    if |r| > 2 { assert r[2] == s[2]; }
    if |r| > 5 { assert r[5] == s[5]; }
  }

  // ---- the response node ----

  /** The keys `createAlbumNode` writes; `KeyName` gives the name each is
      sent under. */
  datatype Key =
    | Name | SongCount | Duration | Title | IsDir | Created | Id | CoverArt
    | Year | Parent | ArtistKey | ArtistId | PlayCount | Genre | Starred
    | MediaType | Played | MusicBrainzId | Moods | Genres | Artists
    | DisplayArtist | OriginalReleaseDate | IsCompilation | ReleaseTypes | DiscTitles

  function KeyName(k: Key): string {
    match k
    case Name => "name"
    case SongCount => "songCount"
    case Duration => "duration"
    case Title => "title"
    case IsDir => "isDir"
    case Created => "created"
    case Id => "id"
    case CoverArt => "coverArt"
    case Year => "year"
    case Parent => "parent"
    case ArtistKey => "artist"
    case ArtistId => "artistId"
    case PlayCount => "playCount"
    case Genre => "genre"
    case Starred => "starred"
    case MediaType => "mediaType"
    case Played => "played"
    case MusicBrainzId => "musicBrainzId"
    case Moods => "moods"
    case Genres => "genres"
    case Artists => "artists"
    case DisplayArtist => "displayArtist"
    case OriginalReleaseDate => "originalReleaseDate"
    case IsCompilation => "isCompilation"
    case ReleaseTypes => "releaseTypes"
    case DiscTitles => "discTitles"
  }

  /** The attributes every album node may carry without OpenSubsonic. */
  const BaseKeys: set<Key> := {Name, SongCount, Duration, Title, IsDir, Created, Id, CoverArt,
                               Year, Parent, ArtistKey, ArtistId, PlayCount, Genre, Starred}

  datatype Value = Str(s: string) | Int(i: int) | Bool(b: bool)

  datatype Artist = Artist(id: string, name: string)
  datatype Disc = Disc(position: nat, name: string)

  /** A child node: an artist node, a genre item node or a disc title. */
  datatype Child = ArtistChild(artist: Artist) | GenreChild(name: string) | DiscTitleChild(disc: nat, title: string)

  /** `Response::Node`: attributes, arrays of values and arrays of child
      nodes. `createAlbumNode` fills each of the three maps in turn. */
  datatype Node = Node(attributes: map<Key, Value>, arrayValues: map<Key, seq<string>>, arrayChildren: map<Key, seq<Child>>)

  /** The attribute `k` of `attrs`, if there is one. */
  function Get(attrs: map<Key, Value>, k: Key): Option<Value> {
    if k in attrs then Some(attrs[k]) else None
  }

  /** What the database says about the release and the user. */
  datatype AlbumSource = AlbumSource(
    id: string,
    name: string,
    tracksCount: nat,
    durationMs: nat,
    lastWritten: string,
    /** The year of `getReleaseDate()`, when that date is valid. */
    releaseYear: Option<int>,
    releaseArtists: seq<Artist>,
    artists: seq<Artist>,
    artistDisplayName: string,
    playCount: nat,
    /** None when there is no GENRE cluster type; otherwise the query of
        `getClusterGroups({genre}, 1)`, most used first. */
    genreClusters: Option<seq<Cluster>>,
    /** The names of the release's GENRE clusters, as `Cluster::find`
        lists them. */
    genreNames: seq<string>,
    starred: Option<string>,
    lastListen: Option<string>,
    mbid: Option<string>,
    /** None when there is no MOOD cluster type. */
    moods: Option<seq<string>>,
    originalReleaseDate: Option<string>,
    primaryType: Option<PrimaryType>,
    secondaryTypes: seq<SecondaryType>,
    discs: seq<Disc>)

  datatype Context = Context(id3: bool, openSubsonic: bool, rootId: string, joinArtistNames: seq<Artist> -> string)

  /** The release artists, or all artists of its tracks when it has none. */
  function ArtistsOf(src: AlbumSource): (r: seq<Artist>)
    ensures |src.releaseArtists| > 0 ==> r == src.releaseArtists
    ensures |r| == 0 <==> |src.releaseArtists| == 0 && |src.artists| == 0
  {
    if |src.releaseArtists| > 0 then src.releaseArtists else src.artists
  }

  function SecondaryTypeNames(types: seq<SecondaryType>): (r: seq<string>)
    ensures |r| == |types| && forall i :: 0 <= i < |r| ==> r[i] == SecondaryTypeName(types[i])
  {
    seq(|types|, i requires 0 <= i < |types| => SecondaryTypeName(types[i]))
  }

  /** The disc-title children: one per disc with a name, in disc order. */
  function DiscTitleChildren(discs: seq<Disc>): seq<Child> {
    if |discs| == 0 then []
    else DiscTitleChildren(discs[..|discs| - 1]) + (if discs[|discs| - 1].name != "" then [DiscTitleChild(discs[|discs| - 1].position, discs[|discs| - 1].name)] else [])
  }

  /** Exactly the discs with a name get a title child. */
  lemma {:induction false} DiscTitleChildrenAre(discs: seq<Disc>)
    ensures |DiscTitleChildren(discs)| <= |discs|
    ensures forall c :: c in DiscTitleChildren(discs) ==> c.DiscTitleChild? && c.title != "" && Disc(c.disc, c.title) in discs
    ensures forall d :: d in discs && d.name != "" ==> DiscTitleChild(d.position, d.name) in DiscTitleChildren(discs)
  {
    if |discs| > 0 {
      var init, d := discs[..|discs| - 1], discs[|discs| - 1];
      assert discs == init + [d];
      DiscTitleChildrenAre(init);
    }
  }

  /** Each of `items` appended, one at a time, to the array `k` of a node:
      `addArrayValue` for string values, `addArrayChild` for child nodes. */
  method AppendToArray<T>(arrays: map<Key, seq<T>>, k: Key, items: seq<T>) returns (r: map<Key, seq<T>>)
    requires k in arrays
    ensures r == arrays[k := arrays[k] + items]
  {
    r := arrays;
    assert arrays[k] + items[..0] == arrays[k];
    for i := 0 to |items|
      invariant r == arrays[k := arrays[k] + items[..i]]
    {
      assert arrays[k] + items[..i + 1] == r[k] + [items[i]];
      r := r[k := r[k] + [items[i]]];
    }
    assert items[..|items|] == items;
  }

  /** The disc loop: a title child for each disc whose name is not empty. */
  method AddDiscTitles(arrays: map<Key, seq<Child>>, discs: seq<Disc>) returns (r: map<Key, seq<Child>>)
    requires DiscTitles in arrays
    ensures r == arrays[DiscTitles := arrays[DiscTitles] + DiscTitleChildren(discs)]
  {
    r := arrays;
    ghost var start := arrays[DiscTitles];
    assert discs[..0] == [] && start + [] == start;
    for i := 0 to |discs|
      invariant r == arrays[DiscTitles := start + DiscTitleChildren(discs[..i])]
    {
      assert discs[..i + 1][..i] == discs[..i];
      if discs[i].name != "" {
        assert start + DiscTitleChildren(discs[..i + 1]) == r[DiscTitles] + [DiscTitleChild(discs[i].position, discs[i].name)];
        r := r[DiscTitles := r[DiscTitles] + [DiscTitleChild(discs[i].position, discs[i].name)]];
      } else {
        assert start + DiscTitleChildren(discs[..i + 1]) == r[DiscTitles];
      }
    }
    assert discs[..|discs|] == discs;
  }

  /** The name, size, date and id attributes: id3 nodes are named and
      carry their song count and duration, directory nodes are titled. */
  function TitleAttributeMap(src: AlbumSource, ctx: Context): map<Key, Value> {
    var named :=
      if ctx.id3 then map[Name := Str(src.name), SongCount := Int(src.tracksCount), Duration := Int(src.durationMs / 1000)]
      else map[Title := Str(src.name), IsDir := Bool(true)];
    var ids := named[Created := Str(src.lastWritten)][Id := Str(src.id)][CoverArt := Str(src.id)];
    if src.releaseYear.Some? then ids[Year := Int(src.releaseYear.value)] else ids
  }

  method TitleAttributes(src: AlbumSource, ctx: Context) returns (attrs: map<Key, Value>)
    ensures attrs == TitleAttributeMap(src, ctx)
  {
    attrs := map[];
    if ctx.id3 {
      attrs := attrs[Name := Str(src.name)];
      attrs := attrs[SongCount := Int(src.tracksCount)];
      attrs := attrs[Duration := Int(src.durationMs / 1000)];
    } else {
      attrs := attrs[Title := Str(src.name)];
      attrs := attrs[IsDir := Bool(true)];
    }
    attrs := attrs[Created := Str(src.lastWritten)];
    attrs := attrs[Id := Str(src.id)];
    attrs := attrs[CoverArt := Str(src.id)];
    if src.releaseYear.Some? {
      attrs := attrs[Year := Int(src.releaseYear.value)];
    }
  }

  /** The artist attributes: the display name or the joined names of the
      artists; the single artist's id as `artistId` (id3) or `parent`;
      the root as `parent` of a directory node with no or several artists. */
  function ArtistAttributeMap(src: AlbumSource, ctx: Context): map<Key, Value> {
    var artists := ArtistsOf(src);
    var root := if ctx.id3 then map[] else map[Parent := Str(ctx.rootId)];
    if |artists| == 0 then root
    else
      var artist := Str(if src.artistDisplayName != "" then src.artistDisplayName else ctx.joinArtistNames(artists));
      if |artists| == 1 then map[ArtistKey := artist, (if ctx.id3 then ArtistId else Parent) := Str(artists[0].id)]
      else root[ArtistKey := artist]
  }

  method ArtistAttributes(attrs: map<Key, Value>, src: AlbumSource, ctx: Context) returns (r: map<Key, Value>)
    ensures r == attrs + ArtistAttributeMap(src, ctx)
  {
    r := attrs;
    var artists := src.releaseArtists;
    if |artists| == 0 {
      artists := src.artists;
    }
    var displayName, rootId := src.artistDisplayName, ctx.rootId;
    if |artists| == 0 && !ctx.id3 {
      r := r[Parent := Str(rootId)];
    } else if |artists| > 0 {
      if displayName != "" {
        r := r[ArtistKey := Str(displayName)];
      } else {
        r := r[ArtistKey := Str(ctx.joinArtistNames(artists))];
      }
      if |artists| == 1 {
        r := r[if ctx.id3 then ArtistId else Parent := Str(artists[0].id)];
      } else if !ctx.id3 {
        r := r[Parent := Str(rootId)];
      }
    }
  }

  /** The name of the first cluster of the first group
      `getClusterGroups({genre}, 1)` returns, if any. */
  ghost function GenreOf(genreClusters: Option<seq<Cluster>>): Option<string> {
    if genreClusters.Some? then
      var groups := Groups(genreClusters.value, 1);
      if |groups| > 0 && |groups[0]| > 0 then Some(groups[0][0].name) else None
    else None
  }

  method FirstGenre(genreClusters: Option<seq<Cluster>>) returns (genre: Option<string>)
    ensures genre == GenreOf(genreClusters)
  {
    genre := None;
    if genreClusters.Some? {
      var groups: seq<seq<Cluster>> := GroupClusters(genreClusters.value, 1);
      if |groups| > 0 && |groups[0]| > 0 {
        genre := Some(groups[0][0].name);
      }
    }
  }

  /** The attributes set before the OpenSubsonic check. */
  ghost function BaseAttributeMap(src: AlbumSource, ctx: Context): map<Key, Value> {
    var attrs := (TitleAttributeMap(src, ctx) + ArtistAttributeMap(src, ctx))[PlayCount := Int(src.playCount)];
    var withGenre := if GenreOf(src.genreClusters).Some? then attrs[Genre := Str(GenreOf(src.genreClusters).value)] else attrs;
    if src.starred.Some? then withGenre[Starred := Str(src.starred.value)] else withGenre
  }

  method BaseAttributes(src: AlbumSource, ctx: Context) returns (attrs: map<Key, Value>)
    ensures attrs == BaseAttributeMap(src, ctx)
  {
    attrs := TitleAttributes(src, ctx);
    attrs := ArtistAttributes(attrs, src, ctx);
    attrs := attrs[PlayCount := Int(src.playCount)];
    var genre := FirstGenre(src.genreClusters);
    if genre.Some? {
      attrs := attrs[Genre := Str(genre.value)];
    }
    if src.starred.Some? {
      attrs := attrs[Starred := Str(src.starred.value)];
    }
  }

  function GenreChildren(names: seq<string>): seq<Child> {
    seq(|names|, i requires 0 <= i < |names| => GenreChild(names[i]))
  }

  /** The node's release types use the corrected secondary names; they
      agree with the names Album.cpp sends for every type except
      Spokenword. */
  lemma SecondaryTypeNamesDifferOnlyForSpokenword(types: seq<SecondaryType>, i: nat)
    requires i < |types|
    ensures SecondaryTypeNames(types)[i] == SecondaryTypeNameAsWritten(types[i]) <==> types[i] != Spokenword
  {
  }

  function ArtistChildren(artists: seq<Artist>): seq<Child> {
    seq(|artists|, i requires 0 <= i < |artists| => ArtistChild(artists[i]))
  }

  /** The release types: the primary type first, then the secondary ones. */
  function ReleaseTypeNames(src: AlbumSource): seq<string> {
    (if src.primaryType.Some? then [PrimaryTypeName(src.primaryType.value)] else []) + SecondaryTypeNames(src.secondaryTypes)
  }

  /** The attributes of the OpenSubsonic extension. */
  function OpenSubsonicAttributeMap(src: AlbumSource, ctx: Context): map<Key, Value> {
    var media := if ctx.id3 then map[] else map[MediaType := Str("album")];
    media[Played := Str(src.lastListen.GetOr(""))][MusicBrainzId := Str(src.mbid.GetOr(""))]
         [DisplayArtist := Str(src.artistDisplayName)]
         [OriginalReleaseDate := Str(src.originalReleaseDate.GetOr(""))]
         [IsCompilation := Bool(Compilation in src.secondaryTypes)]
  }

  /** The OpenSubsonic attributes, added to `attrs`. */
  method OpenSubsonicAttributes(attrs: map<Key, Value>, src: AlbumSource, ctx: Context) returns (r: map<Key, Value>)
    ensures r == attrs + OpenSubsonicAttributeMap(src, ctx)
  {
    r := attrs;
    if !ctx.id3 {
      r := r[MediaType := Str("album")];
    }
    r := r[Played := Str(src.lastListen.GetOr(""))];
    r := r[MusicBrainzId := Str(src.mbid.GetOr(""))];
    r := r[DisplayArtist := Str(src.artistDisplayName)];
    r := r[OriginalReleaseDate := Str(src.originalReleaseDate.GetOr(""))];
    r := r[IsCompilation := Bool(Compilation in src.secondaryTypes)];
  }

  /** The OpenSubsonic value arrays: the moods (empty without a MOOD
      cluster type) and the release types. */
  method OpenSubsonicValues(src: AlbumSource) returns (values: map<Key, seq<string>>)
    ensures values == map[Moods := src.moods.GetOr([]), ReleaseTypes := ReleaseTypeNames(src)]
  {
    values := map[Moods := []];
    if src.moods.Some? {
      values := AppendToArray(values, Moods, src.moods.value);
      assert [] + src.moods.value == src.moods.value;
    }
    ghost var moods := src.moods.GetOr([]);
    assert values == map[Moods := moods];
    values := values[ReleaseTypes := []];
    ghost var primary: seq<string> := [];
    if src.primaryType.Some? {
      primary := [PrimaryTypeName(src.primaryType.value)];
      values := values[ReleaseTypes := values[ReleaseTypes] + [PrimaryTypeName(src.primaryType.value)]];
      assert [] + primary == primary;
    }
    assert values == map[Moods := moods, ReleaseTypes := primary];
    values := AppendToArray(values, ReleaseTypes, SecondaryTypeNames(src.secondaryTypes));
    assert primary + SecondaryTypeNames(src.secondaryTypes) == ReleaseTypeNames(src);
  }

  /** The OpenSubsonic child arrays: the genres (empty without a GENRE
      cluster type), the release artists and the named discs. */
  method OpenSubsonicChildren(src: AlbumSource) returns (children: map<Key, seq<Child>>)
    ensures children == map[Genres := if src.genreClusters.Some? then GenreChildren(src.genreNames) else [],
                            Artists := ArtistChildren(src.releaseArtists),
                            DiscTitles := DiscTitleChildren(src.discs)]
  {
    ghost var genres := if src.genreClusters.Some? then GenreChildren(src.genreNames) else [];
    children := map[Genres := []];
    if src.genreClusters.Some? {
      children := AppendToArray(children, Genres, GenreChildren(src.genreNames));
      assert [] + GenreChildren(src.genreNames) == GenreChildren(src.genreNames);
    }
    assert children == map[Genres := genres];
    children := children[Artists := []];
    children := AppendToArray(children, Artists, ArtistChildren(src.releaseArtists));
    assert [] + ArtistChildren(src.releaseArtists) == ArtistChildren(src.releaseArtists);
    assert children == map[Genres := genres, Artists := ArtistChildren(src.releaseArtists)];
    children := children[DiscTitles := []];
    children := AddDiscTitles(children, src.discs);
    assert [] + DiscTitleChildren(src.discs) == DiscTitleChildren(src.discs);
  }

  /** `createAlbumNode`: the base attributes, and the OpenSubsonic fields
      only when the extension is on. */
  method CreateAlbumNode(src: AlbumSource, ctx: Context) returns (node: Node)
    ensures !ctx.openSubsonic ==> node == Node(BaseAttributeMap(src, ctx), map[], map[])
    ensures ctx.openSubsonic ==> node.attributes == BaseAttributeMap(src, ctx) + OpenSubsonicAttributeMap(src, ctx)
    ensures ctx.openSubsonic ==> node.arrayValues == map[Moods := src.moods.GetOr([]), ReleaseTypes := ReleaseTypeNames(src)]
    ensures ctx.openSubsonic ==> node.arrayChildren == map[Genres := if src.genreClusters.Some? then GenreChildren(src.genreNames) else [],
                                                           Artists := ArtistChildren(src.releaseArtists),
                                                           DiscTitles := DiscTitleChildren(src.discs)]
  {
    var attrs := BaseAttributes(src, ctx);
    if !ctx.openSubsonic {
      return Node(attrs, map[], map[]);
    }
    attrs := OpenSubsonicAttributes(attrs, src, ctx);
    var values := OpenSubsonicValues(src);
    var children := OpenSubsonicChildren(src);
    node := Node(attrs, values, children);
  }

  // ---- what the node says ----

  /** Without OpenSubsonic the node carries only the base attributes and no
      arrays. */
  lemma PlainNodeHasNoExtras(src: AlbumSource, ctx: Context)
    ensures BaseAttributeMap(src, ctx).Keys <= BaseKeys
  {
  }

  /** An id3 node is named and never titled or parented; a directory node is
      titled, a directory, and never named. */
  lemma NodeNaming(src: AlbumSource, ctx: Context)
    ensures Get(BaseAttributeMap(src, ctx), if ctx.id3 then Name else Title) == Some(Str(src.name))
    ensures Get(BaseAttributeMap(src, ctx), if ctx.id3 then Title else Name) == None
    ensures ctx.id3 ==> Get(BaseAttributeMap(src, ctx), Parent) == None
    ensures !ctx.id3 ==> Get(BaseAttributeMap(src, ctx), IsDir) == Some(Bool(true))
  {
    var t, a := TitleAttributeMap(src, ctx), ArtistAttributeMap(src, ctx);
    BaseGet(src, ctx, Name);
    BaseGet(src, ctx, Title);
    BaseGet(src, ctx, Parent);
    BaseGet(src, ctx, IsDir);
    ArtistSetsNoName(src, ctx);
    TitleSetsNoArtist(src, ctx);
    TitleNaming(src, ctx);
    GetLeft(t, a, Name);
    GetLeft(t, a, Title);
    GetLeft(t, a, IsDir);
    if ctx.id3 {
      GetLeft(t, a, Parent);
    }
  }

  /** The title attributes alone: named (id3) or titled as a directory. */
  lemma TitleNaming(src: AlbumSource, ctx: Context)
    ensures Get(TitleAttributeMap(src, ctx), if ctx.id3 then Name else Title) == Some(Str(src.name))
    ensures Get(TitleAttributeMap(src, ctx), if ctx.id3 then Title else Name) == None
    ensures !ctx.id3 ==> Get(TitleAttributeMap(src, ctx), IsDir) == Some(Bool(true))
  {
  }

  lemma GetLeft(a: map<Key, Value>, b: map<Key, Value>, k: Key)
    requires k !in b
    ensures Get(a + b, k) == Get(a, k)
  {
  }

  /** The artist attributes set no name, title or directory flag. */
  lemma ArtistSetsNoName(src: AlbumSource, ctx: Context)
    ensures Name !in ArtistAttributeMap(src, ctx) && Title !in ArtistAttributeMap(src, ctx)
    ensures IsDir !in ArtistAttributeMap(src, ctx)
    ensures ctx.id3 ==> Parent !in ArtistAttributeMap(src, ctx)
  {
  }

  /** The keys the base attributes add after the title and artist ones keep
      every other key as those set it. */
  lemma BaseGet(src: AlbumSource, ctx: Context, k: Key)
    requires k != PlayCount && k != Genre && k != Starred
    ensures Get(BaseAttributeMap(src, ctx), k) == Get(TitleAttributeMap(src, ctx) + ArtistAttributeMap(src, ctx), k)
  {
  }

  /** The title attributes set no artist and no parent. */
  lemma TitleSetsNoArtist(src: AlbumSource, ctx: Context)
    ensures ArtistKey !in TitleAttributeMap(src, ctx) && ArtistId !in TitleAttributeMap(src, ctx)
    ensures Parent !in TitleAttributeMap(src, ctx)
  {
  }

  /** The artist attributes, by number of artists: none sets no artist (and
      the root as parent of a directory node); one sets its id as artistId
      (id3) or parent; several set the root as parent of a directory node.
      The artist is the display name when it is not empty. */
  lemma NodeArtists(src: AlbumSource, ctx: Context)
    ensures |ArtistsOf(src)| == 0 ==> Get(BaseAttributeMap(src, ctx), ArtistKey) == None && Get(BaseAttributeMap(src, ctx), ArtistId) == None
    ensures |ArtistsOf(src)| == 0 && !ctx.id3 ==> Get(BaseAttributeMap(src, ctx), Parent) == Some(Str(ctx.rootId))
    ensures |ArtistsOf(src)| > 0 ==>
      Get(BaseAttributeMap(src, ctx), ArtistKey) == Some(Str(if src.artistDisplayName != "" then src.artistDisplayName else ctx.joinArtistNames(ArtistsOf(src))))
    ensures |ArtistsOf(src)| == 1 ==> Get(BaseAttributeMap(src, ctx), if ctx.id3 then ArtistId else Parent) == Some(Str(ArtistsOf(src)[0].id))
    ensures |ArtistsOf(src)| > 1 ==> Get(BaseAttributeMap(src, ctx), ArtistId) == None
    ensures |ArtistsOf(src)| > 1 && !ctx.id3 ==> Get(BaseAttributeMap(src, ctx), Parent) == Some(Str(ctx.rootId))
  {
    TitleSetsNoArtist(src, ctx);
    BaseGet(src, ctx, ArtistKey);
    BaseGet(src, ctx, ArtistId);
    BaseGet(src, ctx, Parent);
  }

  /** The keys only OpenSubsonic nodes carry. */
  const OpenSubsonicKeys: set<Key> := {MediaType, Played, MusicBrainzId, DisplayArtist, OriginalReleaseDate, IsCompilation}

  lemma OpenSubsonicKeysWithin(src: AlbumSource, ctx: Context)
    ensures OpenSubsonicAttributeMap(src, ctx).Keys <= OpenSubsonicKeys
  {
  }

  /** The OpenSubsonic fields never overwrite a base attribute. */
  lemma OpenSubsonicKeepsBase(src: AlbumSource, ctx: Context, k: Key)
    requires k in BaseKeys
    ensures Get(BaseAttributeMap(src, ctx) + OpenSubsonicAttributeMap(src, ctx), k) == Get(BaseAttributeMap(src, ctx), k)
  {
    OpenSubsonicKeysWithin(src, ctx);
    assert k !in OpenSubsonicKeys;
  }

  /** The release types list the primary type, if any, then one name per
      secondary type; with the intended names no two types are confused. */
  lemma ReleaseTypesListed(src: AlbumSource, i: nat)
    requires src.primaryType.Some? && i < |src.secondaryTypes|
    ensures ReleaseTypeNames(src)[0] == PrimaryTypeName(src.primaryType.value)
    ensures ReleaseTypeNames(src)[i + 1] == SecondaryTypeName(src.secondaryTypes[i])
    ensures |ReleaseTypeNames(src)| == |src.secondaryTypes| + 1
  {
  }

  /** When the release's genre clusters all have the GENRE type, the genre
      reported is the most used one. */
  lemma AlbumGenreIsMostUsed(q: seq<Cluster>, genre: ClusterTypeId)
    requires |q| > 0 && forall c :: c in q ==> c.typeId == genre
    ensures GenreOf(Some(q)) == Some(q[0].name)
  {
    GroupsOfOneType(q, genre, 1);
  }
}
