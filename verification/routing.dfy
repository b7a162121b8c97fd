/** The resolver map: for each graph field, the decision taken from the
    parent object and the field arguments: use data already embedded in the
    parent, reshape a parent field without fetching, queue a key on the
    audio-features loader, or call `get` once with a path and parameters and
    post-process its result. */
module Routing {
  import opened Json
  import Reshape
  import Text

  /** The resolvers of the source's `resolvers` object. `ExternalIds` and
      `ExternalUrls` stand for the identical `objToList` resolvers that the
      Album, SimplifiedAlbum, Artist, SimplifiedArtist, Context, Playlist,
      SimplifiedPlaylist, Track, SimplifiedTrack, LinkedTrack, PrivateUser
      and PublicUser types each declare. */
  datatype GraphField =
    | QueryAlbum | QueryAlbums | QueryArtist | QueryArtists | QueryTracks | QueryTrack
    | QuerySearch | QueryPlaylist | QueryUser | QueryCategory | QueryCategories
    | QueryFeaturedPlaylists | QueryNewReleases
    | AlbumTracks | ArtistAlbums | ArtistTopTracks | ArtistRelatedArtists
    | CategoryPlaylists | PlaylistTracks | PlaylistContainsFollowers
    | TrackAudioAnalysis | TrackAudioFeatures | PublicUserPlaylists
    | ExternalIds | ExternalUrls

  /** What is done with the body `get` resolves to. */
  datatype Post =
    | AsIs                  // the body itself
    | Unwrap(name: string)  // `obj => obj[name]`
    | ToEdge                // `createEdge`
    | UnwrapToEdge(name: string)  // `obj => createEdge(obj[name])`
    | EdgePerSection        // the search rewrite

  datatype Plan =
    | UseEmbedded(value: Value)   // returned as is, nothing fetched
    | ToList(source: Value)       // `objToList(source)`, nothing fetched
    | Load(key: Value)            // `audioFeatureLoader.load(key)`
    | Fetch(path: string, params: seq<Entry>, post: Post)

  /** `ids.join(',')` on the `ids` argument; a non-array has no `join`. */
  function JoinIds(ids: Value): (r: Result<string>)
    ensures r.Ok? <==> ids.Arr?
  {
    if ids.Arr? then Ok(ToStr(ids)) else Err(TypeError)
  }

  /** `const params = {...args}; params.ids = params.ids.join(',')`. */
  function WithJoinedIds(args: seq<Entry>): (r: Result<seq<Entry>>)
    ensures r.Ok? <==> Lookup(args, "ids").Arr?
  {
    match JoinIds(Lookup(args, "ids"))
    case Err(e) => Err(e)
    case Ok(joined) => Ok(Assign(args, "ids", Str(joined)))
  }

  /** A path under the parent's id: `${prefix}${parent.id}${suffix}`. */
  function UnderParent(prefix: string, parent: Value, suffix: string): Result<string>
  {
    match Prop(parent, "id")
    case Err(e) => Err(e)
    case Ok(id) => Ok(prefix + ToStr(id) + suffix)
  }

  /** A fetch of a path under the parent's id. */
  function FetchUnder(prefix: string, parent: Value, suffix: string, params: seq<Entry>, post: Post): Result<Plan>
  {
    match UnderParent(prefix, parent, suffix)
    case Err(e) => Err(e)
    case Ok(path) => Ok(Fetch(path, params, post))
  }

  /** `const {id, ...params} = args; get(`${prefix}${id}`, params)`. */
  function ById(prefix: string, args: seq<Entry>): Plan
  {
    Fetch(prefix + ToStr(Lookup(args, "id")), Without(args, "id"), AsIs)
  }

  /** A list resolver: `ids` comma-joined in place, unwrap `name`. */
  function ByIds(path: string, args: seq<Entry>, name: string): Result<Plan>
  {
    match WithJoinedIds(args)
    case Err(e) => Err(e)
    case Ok(params) => Ok(Fetch(path, params, Unwrap(name)))
  }

  /** The sub-resource resolvers with a short cut: no arguments means the
      parent's embedded `tracks`; otherwise a fetch under the parent's id. */
  function TracksOf(prefix: string, parent: Value, args: seq<Entry>): Result<Plan>
  {
    if |args| == 0 then
      match Prop(parent, "tracks")
      case Err(e) => Err(e)
      case Ok(tracks) => Ok(UseEmbedded(tracks))
    else FetchUnder(prefix, parent, "/tracks", args, ToEdge)
  }

  function ListOf(parent: Value, name: string): Result<Plan>
  {
    match Prop(parent, name)
    case Err(e) => Err(e)
    case Ok(source) => Ok(ToList(source))
  }

  /** The decision each resolver takes. */
  function Route(f: GraphField, parent: Value, args: seq<Entry>): (r: Result<Plan>)
    ensures r.Err? ==> r.error == TypeError
    ensures r.Err? ==> Nullish(parent) || !Lookup(args, "ids").Arr?
    ensures r.Ok? && r.value.Fetch? ==> (r.value.post.EdgePerSection? <==> f == QuerySearch)
    ensures r.Ok? && r.value.Load? ==> f == TrackAudioFeatures && r.value.key == Field(parent, "id")
  {
    match f
    case QueryAlbum => Ok(ById("/albums/", args))
    case QueryAlbums => ByIds("/albums", args, "albums")
    case QueryArtist => Ok(Fetch("/artists/" + ToStr(Lookup(args, "id")), [], AsIs))
    case QueryArtists => ByIds("/artists", args, "artists")
    case QueryTracks => ByIds("/tracks", args, "tracks")
    case QueryTrack => Ok(ById("/tracks/", args))
    case QuerySearch => Ok(Fetch("/search", args, EdgePerSection))
    case QueryPlaylist => Ok(ById("/playlists/", args))
    case QueryUser => Ok(Fetch("/users/" + ToStr(Lookup(args, "id")), [], AsIs))
    case QueryCategory => Ok(Fetch("/browse/categories/" + ToStr(Lookup(args, "id")), [], AsIs))
    case QueryCategories => Ok(Fetch("/browse/categories", args, UnwrapToEdge("categories")))
    case QueryFeaturedPlaylists => Ok(Fetch("/browse/featured-playlists", args, UnwrapToEdge("playlists")))
    case QueryNewReleases => Ok(Fetch("/browse/new-releases", args, UnwrapToEdge("albums")))
    case AlbumTracks => TracksOf("/albums/", parent, args)
    case ArtistAlbums => FetchUnder("/artists/", parent, "/albums", args, ToEdge)
    case ArtistTopTracks => FetchUnder("/artists/", parent, "/top-tracks", args, Unwrap("tracks"))
    case ArtistRelatedArtists => FetchUnder("/artists/", parent, "/related-artists", [], Unwrap("artists"))
    case CategoryPlaylists => FetchUnder("/browse/categories/", parent, "/playlists", args, UnwrapToEdge("playlists"))
    case PlaylistTracks => TracksOf("/playlists/", parent, args)
    case PlaylistContainsFollowers =>
      (match WithJoinedIds(args)
       case Err(e) => Err(e)
       case Ok(params) => FetchUnder("/playlists/", parent, "/followers/contains", params, AsIs))
    case TrackAudioAnalysis => FetchUnder("/audio-analysis/", parent, "", [], AsIs)
    case TrackAudioFeatures =>
      (match Prop(parent, "id")
       case Err(e) => Err(e)
       case Ok(id) => Ok(Load(id)))
    case PublicUserPlaylists => FetchUnder("/users/", parent, "/playlists", args, ToEdge)
    case ExternalIds => ListOf(parent, "external_ids")
    case ExternalUrls => ListOf(parent, "external_urls")
  }

  /** The post-processing applied to a fetched body. */
  function Finish(post: Post, body: Value): (r: Result<Value>)
    ensures r.Err? ==> r.error == TypeError
    ensures post.AsIs? ==> r == Ok(body)
    ensures Nullish(body) ==> post.AsIs? || r.Err?
    ensures !Nullish(body) && post.Unwrap? ==> r == Ok(Field(body, post.name))
    ensures !Nullish(body) && post.UnwrapToEdge? ==> (r.Err? <==> Nullish(Field(body, post.name)))
    ensures r.Ok? && (post.ToEdge? || post.UnwrapToEdge?) ==>
      && r.value.Obj? && Keys(r.value.entries) == ["items", "paging"]
      && Field(r.value, "paging") == (if post.ToEdge? then body else Field(body, post.name))
  {
    match post
    case AsIs => Ok(body)
    case Unwrap(name) => Prop(body, name)
    case ToEdge => Reshape.CreateEdge(body)
    case UnwrapToEdge(name) =>
      (match Prop(body, name)
       case Err(e) => Err(e)
       case Ok(listing) => Reshape.CreateEdge(listing))
    case EdgePerSection => Reshape.SectionsWrapped(body)
  }

  /** `PlaylistTrackItem.__resolveType`. */
  function ResolveType(item: Value): (r: Result<string>)
    ensures r.Err? <==> Nullish(item)
    ensures r.Ok? ==> (r.value == "LocalPlaylistTrack" <==> Truthy(Field(item, "is_local")))
    ensures r.Ok? ==> (r.value == "PlaylistTrack" <==> !Truthy(Field(item, "is_local")))
  {
    match Prop(item, "is_local")
    case Err(e) => Err(e)
    case Ok(isLocal) => Ok(if Truthy(isLocal) then "LocalPlaylistTrack" else "PlaylistTrack")
  }

  /** The album and playlist `tracks` resolvers fetch nothing exactly when
      they get no arguments; then they return the parent's embedded tracks,
      otherwise one fetch of `/{kind}/{parent.id}/tracks` wrapped as an edge. */
  lemma TracksShortCut(f: GraphField, parent: Value, args: seq<Entry>)
    requires f == AlbumTracks || f == PlaylistTracks
    requires !Nullish(parent)
    ensures Route(f, parent, args).Ok?
    ensures Route(f, parent, args).value.UseEmbedded? <==> |args| == 0
    ensures |args| == 0 ==> Route(f, parent, args).value == UseEmbedded(Field(parent, "tracks"))
    ensures |args| > 0 ==>
      var kind := if f == AlbumTracks then "/albums/" else "/playlists/";
      Route(f, parent, args).value == Fetch(kind + ToStr(Field(parent, "id")) + "/tracks", args, ToEdge)
  {
  }

  /** Only the embedded-tracks short cut, the key/value-list fields and the
      audio-features loader answer without a fetch of their own. */
  lemma FetchFreeFields(f: GraphField, parent: Value, args: seq<Entry>)
    requires Route(f, parent, args).Ok? && !Route(f, parent, args).value.Fetch?
    ensures f in {AlbumTracks, PlaylistTracks, ExternalIds, ExternalUrls, TrackAudioFeatures}
    ensures f == AlbumTracks || f == PlaylistTracks ==> |args| == 0
  {
  }

  /** The by-id resolvers that forward their other arguments put `id` into
      the path and the rest object of the arguments into the query, so every
      other argument is forwarded, in order (see `Json.WithoutOne`). */
  lemma IdMovesToPath(f: GraphField, parent: Value, args: seq<Entry>)
    requires f == QueryAlbum || f == QueryTrack || f == QueryPlaylist
    ensures Route(f, parent, args).Ok? && Route(f, parent, args).value.Fetch?
    ensures Route(f, parent, args).value.params == Without(args, "id")
    ensures "id" !in Keys(Route(f, parent, args).value.params)
    ensures Route(f, parent, args).value.path ==
      (match f case QueryAlbum => "/albums/" case QueryTrack => "/tracks/" case _ => "/playlists/")
      + ToStr(Lookup(args, "id"))
  {
  }

  /** Whatever a resolver sends as query parameters is named by one of its
      own arguments: no resolver adds a parameter of its own. */
  lemma ForwardsOnlyArguments(f: GraphField, parent: Value, args: seq<Entry>)
    requires Route(f, parent, args).Ok? && Route(f, parent, args).value.Fetch?
    ensures forall k :: k in Keys(Route(f, parent, args).value.params) ==> k in Keys(args)
  {
    match f {
      case QueryAlbum => WithoutKeys(args, "id");
      case QueryTrack => WithoutKeys(args, "id");
      case QueryPlaylist => WithoutKeys(args, "id");
      case QueryAlbums => JoinedIdsKeys(args);
      case QueryArtists => JoinedIdsKeys(args);
      case QueryTracks => JoinedIdsKeys(args);
      case PlaylistContainsFollowers => JoinedIdsKeys(args);
      case _ =>
    }
  }

  /** Joining `ids` in place renames no argument. */
  lemma JoinedIdsKeys(args: seq<Entry>)
    requires WithJoinedIds(args).Ok?
    ensures Keys(WithJoinedIds(args).value) == Keys(args)
  {
  }

  /** An array of strings joins to the strings separated by commas, so
      ids without commas can be split back out of the parameter. */
  lemma {:induction false} JoinedIdsRoundTrip(ss: seq<string>)
    requires |ss| >= 1
    requires forall i :: 0 <= i < |ss| ==> ',' !in ss[i]
    ensures JoinIds(Arr(Strs(ss))) == Ok(Text.Join(ss, ','))
    ensures Text.Split(Text.Join(ss, ','), ',') == ss
  {
    var xs := Strs(ss);
    var parts := seq(|xs|, i requires 0 <= i < |xs| => if Nullish(xs[i]) then "" else ToStr(xs[i]));
    assert parts == ss;
    Text.SplitJoin(ss, ',');
  }

  /** The list resolvers send their arguments in order with `ids` replaced,
      at its own position, by the comma-joined list; everything else is
      passed through. Without an array `ids` they throw. */
  lemma IdsJoinedInPlace(f: GraphField, parent: Value, args: seq<Entry>)
    requires f in {QueryAlbums, QueryArtists, QueryTracks}
    ensures Route(f, parent, args).Ok? <==> Lookup(args, "ids").Arr?
    ensures Route(f, parent, args).Ok? ==>
      var params := Route(f, parent, args).value.params;
      && Keys(params) == Keys(args)
      && Lookup(params, "ids") == Str(ToStr(Lookup(args, "ids")))
      && forall i :: 0 <= i < |args| && args[i].0 != "ids" ==> params[i] == args[i]
  {
    if Lookup(args, "ids").Arr? {
      JoinedIdsKeys(args);
    }
  }
}
