/** Tracks and playlists as the home page sees them, the normalisation of the
    two incoming track shapes into the stored record, and the pure helpers
    over favorites and playlists (frontend/src/pages/Home.js). */
module Tracks {
  import opened JsValues

  datatype Artist = Artist(name: Option<string>)
  datatype Image = Image(url: Option<string>)
  datatype Album = Album(images: Option<seq<Image>>)

  /** A track object as a handler receives it. The search API's shape has
      `id`, `name`, `artists`, `album` and `preview_url`; the stored shape has
      `trackId`, `trackName`, `artistName`, `albumImage` and `previewUrl`.
      The object is duck-typed, so any field may be absent. */
  datatype JsTrack = JsTrack(
    id: Option<string>,
    name: Option<string>,
    artists: Option<seq<Artist>>,
    album: Option<Album>,
    preview_url: Option<string>,
    trackId: Option<string>,
    trackName: Option<string>,
    artistName: Option<string>,
    albumImage: Option<string>,
    previewUrl: Option<string>)

  /** The stored track record the client sends to the backend and keeps in
      favorites and playlists. Identifier and name are copied without a default. */
  datatype TrackData = TrackData(
    trackId: Option<string>,
    trackName: Option<string>,
    artistName: string,
    albumImage: string,
    previewUrl: string)

  /** A playlist as the backend returns it; `id` is the document's `_id`. */
  datatype Playlist = Playlist(id: string, name: string, description: string, tracks: seq<TrackData>)

  /** An object carrying only the search API's fields. */
  predicate IsApiShaped(t: JsTrack) {
    t.trackId.None? && t.trackName.None? && t.artistName.None? && t.albumImage.None? && t.previewUrl.None?
  }

  /** The stored record seen again as a plain object (as the favorites and playlists tabs pass it back in). */
  function AsObject(d: TrackData): (t: JsTrack)
    ensures t.id.None? && t.name.None? && t.artists.None? && t.album.None? && t.preview_url.None?
    ensures t.trackId == d.trackId && t.trackName == d.trackName
    ensures t.artistName == Some(d.artistName) && t.albumImage == Some(d.albumImage) && t.previewUrl == Some(d.previewUrl)
  {
    JsTrack(None, None, None, None, None, d.trackId, d.trackName, Some(d.artistName), Some(d.albumImage), Some(d.previewUrl))
  }

  /** `track.artists?.[0]?.name` */
  function FirstArtistName(t: JsTrack): (r: Option<string>)
    ensures r.Some? ==> t.artists.Some? && |t.artists.value| > 0 && r == t.artists.value[0].name
    ensures t.artists.Some? && |t.artists.value| > 0 ==> r == t.artists.value[0].name
  {
    if t.artists.Some? && |t.artists.value| > 0 then t.artists.value[0].name else None
  }

  /** `track.album?.images?.[0]?.url` */
  function FirstImageUrl(t: JsTrack): (r: Option<string>)
    ensures r.Some? ==> t.album.Some? && t.album.value.images.Some? && |t.album.value.images.value| > 0
                        && r == t.album.value.images.value[0].url
    ensures t.album.Some? && t.album.value.images.Some? && |t.album.value.images.value| > 0
            ==> r == t.album.value.images.value[0].url
  {
    if t.album.Some? && t.album.value.images.Some? && |t.album.value.images.value| > 0
    then t.album.value.images.value[0].url
    else None
  }

  /** The record built by `addToFavorites`: API fields only, with the defaults
      'Unknown' for the artist and '' for the image and the preview. */
  function NormalizeFavorite(t: JsTrack): (d: TrackData)
    ensures d.trackId == t.id && d.trackName == t.name
    ensures d.artistName != ""
    ensures d.artistName == "Unknown" || Some(d.artistName) == FirstArtistName(t)
    ensures Truthy(FirstArtistName(t)) ==> Some(d.artistName) == FirstArtistName(t)
    ensures d.albumImage == "" || Some(d.albumImage) == FirstImageUrl(t)
    ensures Truthy(FirstImageUrl(t)) ==> Some(d.albumImage) == FirstImageUrl(t)
    ensures d.previewUrl == "" || Some(d.previewUrl) == t.preview_url
    ensures Truthy(t.preview_url) ==> Some(d.previewUrl) == t.preview_url
  {
    TrackData(
      t.id,
      t.name,
      OrDefault(FirstArtistName(t), "Unknown"),
      OrDefault(FirstImageUrl(t), ""),
      OrDefault(t.preview_url, ""))
  }

  /** The record built by `addTrackToPlaylist`: the API field when truthy,
      else the stored field, else the default. On an object of the API shape
      it agrees with the favorites normaliser, except that an empty `id` or
      `name` falls through to the absent stored field; a truthy API field always wins. */
  function NormalizeForPlaylist(t: JsTrack): (d: TrackData)
    ensures IsApiShaped(t) && t.id != Some("") && t.name != Some("") ==> d == NormalizeFavorite(t)
    ensures IsApiShaped(t) && t.id == Some("") ==> d.trackId == None
    ensures d.artistName != ""
    ensures d.trackId == t.id || d.trackId == t.trackId
    ensures Truthy(t.id) ==> d.trackId == t.id
    ensures Truthy(t.name) ==> d.trackName == t.name
    ensures Truthy(FirstArtistName(t)) ==> d.artistName == NormalizeFavorite(t).artistName
    ensures Truthy(FirstImageUrl(t)) ==> d.albumImage == NormalizeFavorite(t).albumImage
    ensures Truthy(t.preview_url) ==> d.previewUrl == NormalizeFavorite(t).previewUrl
    ensures !Truthy(FirstArtistName(t)) && Truthy(t.artistName) ==> Some(d.artistName) == t.artistName
    ensures !Truthy(FirstImageUrl(t)) && Truthy(t.albumImage) ==> Some(d.albumImage) == t.albumImage
    ensures !Truthy(t.preview_url) && Truthy(t.previewUrl) ==> Some(d.previewUrl) == t.previewUrl
    ensures !Truthy(t.id) ==> d.trackId == t.trackId
    ensures !Truthy(t.name) ==> d.trackName == t.trackName
    ensures !Truthy(FirstArtistName(t)) && !Truthy(t.artistName) ==> d.artistName == "Unknown"
    ensures !Truthy(FirstImageUrl(t)) && !Truthy(t.albumImage) ==> d.albumImage == ""
    ensures !Truthy(t.preview_url) && !Truthy(t.previewUrl) ==> d.previewUrl == ""
  {
    TrackData(
      Or(t.id, t.trackId),
      Or(t.name, t.trackName),
      OrDefault(Or(FirstArtistName(t), t.artistName), "Unknown"),
      OrDefault(Or(FirstImageUrl(t), t.albumImage), ""),
      OrDefault(Or(t.preview_url, t.previewUrl), ""))
  }

  /** A stored record passed back through the playlist normaliser comes out
      unchanged, provided its artist name is not empty (an empty one becomes 'Unknown'). */
  lemma PlaylistNormalizeStored(d: TrackData)
    requires d.artistName != ""
    ensures NormalizeForPlaylist(AsObject(d)) == d
  {
  }

  /** Both normalisers are idempotent through the stored shape: normalising
      a record they produced gives the same record again. */
  lemma NormalizeIdempotent(t: JsTrack)
    ensures NormalizeForPlaylist(AsObject(NormalizeForPlaylist(t))) == NormalizeForPlaylist(t)
    ensures NormalizeForPlaylist(AsObject(NormalizeFavorite(t))) == NormalizeFavorite(t)
  {
  }

  /** So a stored record handed to the favorites normaliser (the heart button
      of a card on the playlists tab) loses its id, name, artist, image and
      preview: only the defaults remain. */
  lemma FavoriteOfStoredShape(d: TrackData)
    ensures NormalizeFavorite(AsObject(d)) == TrackData(None, None, "Unknown", "", "")
  {
  }

  /** The favorites normaliser reads the API fields only: two objects that
      agree on them give the same record. */
  lemma FavoriteIgnoresStoredFields(t: JsTrack, u: JsTrack)
    requires t.id == u.id && t.name == u.name && t.artists == u.artists
    requires t.album == u.album && t.preview_url == u.preview_url
    ensures NormalizeFavorite(t) == NormalizeFavorite(u)
  {
  }

  /** The fields a track card displays (`TrackCard`): the API fields (with the
      'Unknown' and '' defaults for artist and image) or the stored fields as they are. */
  datatype CardView = CardView(
    trackId: Option<string>,
    trackName: Option<string>,
    artistName: Option<string>,
    albumImage: Option<string>,
    previewUrl: Option<string>)

  function CardFields(t: JsTrack, isFromApi: bool): (c: CardView)
    ensures isFromApi ==> c.trackId == NormalizeFavorite(t).trackId && c.trackName == NormalizeFavorite(t).trackName
    ensures isFromApi ==> c.artistName == Some(NormalizeFavorite(t).artistName)
    ensures isFromApi ==> c.albumImage == Some(NormalizeFavorite(t).albumImage)
    ensures isFromApi ==> (Truthy(c.previewUrl) <==> NormalizeFavorite(t).previewUrl != "")
    ensures !isFromApi ==> c == CardView(t.trackId, t.trackName, t.artistName, t.albumImage, t.previewUrl)
  {
    if isFromApi then
      CardView(t.id, t.name, Some(OrDefault(FirstArtistName(t), "Unknown")), Some(OrDefault(FirstImageUrl(t), "")), t.preview_url)
    else
      CardView(t.trackId, t.trackName, t.artistName, t.albumImage, t.previewUrl)
  }

  /** A card for a stored record shows exactly that record's fields. */
  lemma CardOfStored(d: TrackData)
    ensures CardFields(AsObject(d), false)
         == CardView(d.trackId, d.trackName, Some(d.artistName), Some(d.albumImage), Some(d.previewUrl))
  {
  }

  /** `favorites.some(f => f.trackId === trackId)` */
  function HasTrackId(favorites: seq<TrackData>, trackId: Option<string>): (r: bool)
    ensures r <==> exists i :: 0 <= i < |favorites| && favorites[i].trackId == trackId
  {
    if favorites == [] then false
    else favorites[0].trackId == trackId || HasTrackId(favorites[1..], trackId)
  }

  /** `playlists.map(p => p._id === playlistId ? updated : p)`: same length and
      order, every entry with the target id replaced, every other entry kept. */
  function ReplaceById(playlists: seq<Playlist>, playlistId: string, updated: Playlist): (r: seq<Playlist>)
    ensures |r| == |playlists|
    ensures forall i :: 0 <= i < |r| && playlists[i].id == playlistId ==> r[i] == updated
    ensures forall i :: 0 <= i < |r| && playlists[i].id != playlistId ==> r[i] == playlists[i]
  {
    if playlists == [] then []
    else
      [if playlists[0].id == playlistId then updated else playlists[0]]
      + ReplaceById(playlists[1..], playlistId, updated)
  }

  /** The identifiers of a playlist sequence, in order. */
  function Ids(playlists: seq<Playlist>): (r: seq<string>)
    ensures |r| == |playlists|
    ensures forall i :: 0 <= i < |r| ==> r[i] == playlists[i].id
  {
    seq(|playlists|, i requires 0 <= i < |playlists| => playlists[i].id)
  }

  /** Replacing an id that no entry carries changes nothing. */
  lemma ReplaceAbsent(playlists: seq<Playlist>, playlistId: string, updated: Playlist)
    requires playlistId !in Ids(playlists)
    ensures ReplaceById(playlists, playlistId, updated) == playlists
  {
  }

  /** When the server's playlist keeps the target id, the identifiers and
      their order are unchanged, and replacing again with the same playlist is a no-op. */
  lemma ReplaceKeepsIds(playlists: seq<Playlist>, playlistId: string, updated: Playlist)
    requires updated.id == playlistId
    ensures Ids(ReplaceById(playlists, playlistId, updated)) == Ids(playlists)
    ensures ReplaceById(ReplaceById(playlists, playlistId, updated), playlistId, updated)
         == ReplaceById(playlists, playlistId, updated)
  {
  }
}
