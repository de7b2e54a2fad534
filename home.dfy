/** The state of the home page component (frontend/src/pages/Home.js) and its
    handlers. Each `useState` slot is a field; each handler is a method. A
    handler that talks to a server takes the server's answer as a parameter
    and returns the request it sends, so the model does no I/O. */
module Home {
  import opened JsValues
  import opened Tracks

  datatype Tab = Trending | Search | Favorites | Playlists

  /** The answer of a server call: the response body's payload, or a failure
      carrying `error.response?.data?.message` when there is one. */
  datatype Response<T> = Ok(payload: T) | Err(message: Option<string>)

  /** A request the page sends: to the search API or to the collection backend. */
  datatype Request =
    | SearchApi(query: string, limit: nat)
    | PostFavorite(track: TrackData)
    | DeleteFavorite(trackId: Option<string>)
    | PostPlaylist(name: string, description: string)
    | DeletePlaylist(playlistId: string)
    | PostPlaylistTrack(playlistId: string, track: TrackData)
    | DeletePlaylistTrack(playlistId: string, trackId: Option<string>)

  /** The signed-in user as the session provider holds it. */
  datatype User = User(name: string, favorites: seq<TrackData>, playlists: seq<Playlist>)

  /** The single "currently playing" slot: `null`, or the id of the card that
      plays (itself possibly `undefined`, which JavaScript keeps apart from `null`). */
  datatype Slot = Idle | Playing(trackId: Option<string>)

  const TrendingQuery: string := "trending 2024"
  const ResultLimit: nat := 20

  const AlreadyInFavorites: string := "Track already in favorites"
  const AlreadyInPlaylist: string := "Track already in playlist"

  const ToastTrendingFailed: string := "Failed to load trending songs"
  const ToastSearchFailed: string := "Search failed"
  const ToastFavoriteAdded: string := "Added to favorites! \U{2764}\U{FE0F}"
  const ToastFavoriteDuplicate: string := "Already in favorites!"
  const ToastFavoriteAddFailed: string := "Failed to add to favorites"
  const ToastFavoriteRemoved: string := "Removed from favorites"
  const ToastRemoveFailed: string := "Failed to remove"
  const ToastNameRequired: string := "Please enter a playlist name"
  const ToastPlaylistCreated: string := "Playlist created! \U{1F4DD}"
  const ToastCreateFailed: string := "Failed to create playlist"
  const ToastPlaylistDeleted: string := "Playlist deleted"
  const ToastDeleteFailed: string := "Failed to delete playlist"
  const ToastCreatePlaylistFirst: string := "Create a playlist first!"
  const ToastTrackDuplicate: string := "Already in this playlist!"
  const ToastTrackAddFailed: string := "Failed to add to playlist"
  const ToastTrackRemoved: string := "Removed from playlist"

  /** The toast after adding a track to the playlist named `name`. */
  function TrackAddedToast(name: string): (m: string)
    ensures |m| == |name| + 14 && m[10..10 + |name|] == name
  {
    "Added to \"" + name + "\"! \U{1F3B5}"
  }

  /** `data.tracks?.items?.slice(0, 20) || []`: the first twenty items at most. */
  function TrendingSlice(items: Option<seq<JsTrack>>): (r: seq<JsTrack>)
    ensures |r| <= ResultLimit
    ensures items.None? ==> r == []
    ensures items.Some? ==> |r| == (if |items.value| < ResultLimit then |items.value| else ResultLimit)
    ensures items.Some? ==> r == items.value[..|r|]
  {
    match items
    case None => []
    case Some(s) => if |s| <= ResultLimit then s else s[..ResultLimit]
  }

  /** The toast for a failed `addToFavorites`: the duplicate message is recognised by its text. */
  function FavoriteFailureToast(message: Option<string>): (m: string)
    ensures m == ToastFavoriteDuplicate <==> message == Some(AlreadyInFavorites)
    ensures m == ToastFavoriteDuplicate || m == ToastFavoriteAddFailed
  {
    if message == Some(AlreadyInFavorites) then ToastFavoriteDuplicate else ToastFavoriteAddFailed
  }

  /** The toast for a failed `addTrackToPlaylist`. */
  function TrackFailureToast(message: Option<string>): (m: string)
    ensures m == ToastTrackDuplicate <==> message == Some(AlreadyInPlaylist)
    ensures m == ToastTrackDuplicate || m == ToastTrackAddFailed
  {
    if message == Some(AlreadyInPlaylist) then ToastTrackDuplicate else ToastTrackAddFailed
  }

  /** The play button: clicking the playing card stops it, clicking any other starts it.
      Afterwards either nothing plays or the clicked card does. */
  function Toggled(slot: Slot, trackId: Option<string>): (r: Slot)
    ensures r == Idle || r == Playing(trackId)
    ensures r == Idle <==> slot == Playing(trackId)
  {
    if slot == Playing(trackId) then Idle else Playing(trackId)
  }

  /** Clicking the same card twice stops the playback, unless that card was
      already playing, in which case it plays again. */
  lemma ToggleTwice(slot: Slot, trackId: Option<string>)
    ensures Toggled(Toggled(slot, trackId), trackId) == (if slot == Playing(trackId) then slot else Idle)
  {
  }

  /** A snapshot of every field of the page, so that each handler can state
      its whole new state as the old one with some fields changed. */
  datatype HomeState = HomeState(
    keyword: string,
    isLoading: bool,
    tracks: seq<JsTrack>,
    trendingTracks: seq<JsTrack>,
    favorites: seq<TrackData>,
    playlists: seq<Playlist>,
    activeTab: Tab,
    newPlaylistName: string,
    showCreatePlaylist: bool,
    currentlyPlaying: Slot,
    toast: string,
    user: User)

  class HomePage {
    var keyword: string
    var isLoading: bool
    var tracks: seq<JsTrack>
    var trendingTracks: seq<JsTrack>
    var favorites: seq<TrackData>
    var playlists: seq<Playlist>
    var activeTab: Tab
    var newPlaylistName: string
    var showCreatePlaylist: bool
    var currentlyPlaying: Slot
    var toast: string
    /** The session provider's user, overwritten through `updateUser`. */
    var user: User

    function State(): HomeState
      reads this
    {
      HomeState(keyword, isLoading, tracks, trendingTracks, favorites, playlists, activeTab,
                newPlaylistName, showCreatePlaylist, currentlyPlaying, toast, user)
    }

    /** The page's collections are the user's, and the trending list is bounded. */
    ghost predicate Valid()
      reads this
    {
      && user.favorites == favorites
      && user.playlists == playlists
      && |trendingTracks| <= ResultLimit
    }

    /** The initial state once the effect on `user` has copied its collections. */
    constructor (u: User)
      ensures Valid()
      ensures State() == HomeState("", false, [], [], u.favorites, u.playlists, Trending, "", false, Idle, "", u)
    {
      keyword, isLoading, tracks, trendingTracks := "", false, [], [];
      favorites, playlists := u.favorites, u.playlists;
      activeTab, newPlaylistName, showCreatePlaylist := Trending, "", false;
      currentlyPlaying, toast, user := Idle, "", u;
    }

    /** `isFavorite`: some favorite carries this track id. */
    function IsFavorite(trackId: Option<string>): (r: bool)
      reads this
      ensures r <==> exists i :: 0 <= i < |favorites| && favorites[i].trackId == trackId
    {
      HasTrackId(favorites, trackId)
    }

    /** Whether the card shows its `<audio>` element: it is the playing card and has a preview. */
    function AudioPlays(card: CardView): (r: bool)
      reads this
      ensures r ==> currentlyPlaying == Playing(card.trackId) && Truthy(card.previewUrl)
      ensures currentlyPlaying == Playing(card.trackId) && Truthy(card.previewUrl) ==> r
      ensures currentlyPlaying == Idle ==> !r
    {
      currentlyPlaying == Playing(card.trackId) && Truthy(card.previewUrl)
    }

    /** Loads the trending list; the first twenty items replace it, a failure keeps it. */
    method LoadTrendingSongs(outcome: Response<Option<seq<JsTrack>>>) returns (sent: Request)
      requires Valid()
      modifies this
      ensures Valid()
      ensures sent == SearchApi(TrendingQuery, ResultLimit)
      ensures outcome.Ok? ==> State() == old(State()).(isLoading := false, trendingTracks := TrendingSlice(outcome.payload))
      ensures outcome.Err? ==> State() == old(State()).(isLoading := false, toast := ToastTrendingFailed)
    {
      isLoading := true;
      sent := SearchApi(TrendingQuery, ResultLimit);
      match outcome {
        case Ok(items) =>
          trendingTracks := TrendingSlice(items);
        case Err(_) =>
          toast := ToastTrendingFailed;
      }
      isLoading := false;
    }

    /** Searches for the keyword as typed. A blank keyword does nothing at all;
        otherwise the search tab opens and the results (none when the response
        has no items) replace the list, or a failure keeps it. */
    method SearchTracks(outcome: Response<Option<seq<JsTrack>>>) returns (sent: Option<Request>)
      requires Valid()
      modifies this
      ensures Valid()
      ensures Trim(old(keyword)) == "" ==> sent == None && State() == old(State())
      ensures Trim(old(keyword)) != "" ==> sent == Some(SearchApi(old(keyword), ResultLimit))
      ensures Trim(old(keyword)) != "" && outcome.Ok? ==>
                State() == old(State()).(isLoading := false, activeTab := Search, tracks := outcome.payload.GetOr([]))
      ensures Trim(old(keyword)) != "" && outcome.Err? ==>
                State() == old(State()).(isLoading := false, activeTab := Search, toast := ToastSearchFailed)
    {
      if Trim(keyword) == "" {
        return None;
      }
      isLoading := true;
      activeTab := Search;
      sent := Some(SearchApi(keyword, ResultLimit));
      match outcome {
        case Ok(items) =>
          tracks := items.GetOr([]);
        case Err(_) =>
          toast := ToastSearchFailed;
      }
      isLoading := false;
    }

    /** Adds a track (read in the API shape) to the favorites; the server's list replaces the page's and the user's. */
    method AddToFavorites(track: JsTrack, outcome: Response<seq<TrackData>>) returns (sent: Request)
      requires Valid()
      modifies this
      ensures Valid()
      ensures sent == PostFavorite(NormalizeFavorite(track))
      ensures outcome.Ok? ==> State() == old(State()).(favorites := outcome.payload,
                                 user := old(user).(favorites := outcome.payload), toast := ToastFavoriteAdded)
      ensures outcome.Err? ==> State() == old(State()).(toast := FavoriteFailureToast(outcome.message))
    {
      var trackData := NormalizeFavorite(track);
      sent := PostFavorite(trackData);
      match outcome {
        case Ok(list) =>
          favorites := list;
          user := user.(favorites := list);
          toast := ToastFavoriteAdded;
        case Err(message) =>
          toast := FavoriteFailureToast(message);
      }
    }

    /** Removes a track from the favorites; the server's list replaces the page's and the user's. */
    method RemoveFromFavorites(trackId: Option<string>, outcome: Response<seq<TrackData>>) returns (sent: Request)
      requires Valid()
      modifies this
      ensures Valid()
      ensures sent == DeleteFavorite(trackId)
      ensures outcome.Ok? ==> State() == old(State()).(favorites := outcome.payload,
                                 user := old(user).(favorites := outcome.payload), toast := ToastFavoriteRemoved)
      ensures outcome.Err? ==> State() == old(State()).(toast := ToastRemoveFailed)
    {
      sent := DeleteFavorite(trackId);
      match outcome {
        case Ok(list) =>
          favorites := list;
          user := user.(favorites := list);
          toast := ToastFavoriteRemoved;
        case Err(_) =>
          toast := ToastRemoveFailed;
      }
    }

    /** The heart button of a card: removes the card's track when it is a
        favorite, otherwise adds the card's track object. */
    method ClickFavorite(track: JsTrack, isFromApi: bool, outcome: Response<seq<TrackData>>) returns (sent: Request)
      requires Valid()
      modifies this
      ensures Valid()
      ensures old(IsFavorite(CardFields(track, isFromApi).trackId)) ==> sent == DeleteFavorite(CardFields(track, isFromApi).trackId)
      ensures !old(IsFavorite(CardFields(track, isFromApi).trackId)) ==> sent == PostFavorite(NormalizeFavorite(track))
      ensures var wasFavorite := old(IsFavorite(CardFields(track, isFromApi).trackId));
              outcome.Ok? ==>
                State() == old(State()).(favorites := outcome.payload, user := old(user).(favorites := outcome.payload),
                                         toast := if wasFavorite then ToastFavoriteRemoved else ToastFavoriteAdded)
      ensures var wasFavorite := old(IsFavorite(CardFields(track, isFromApi).trackId));
              outcome.Err? ==>
                State() == old(State()).(toast := if wasFavorite then ToastRemoveFailed else FavoriteFailureToast(outcome.message))
    {
      var trackId := CardFields(track, isFromApi).trackId;
      if IsFavorite(trackId) {
        sent := RemoveFromFavorites(trackId, outcome);
      } else {
        sent := AddToFavorites(track, outcome);
      }
    }

    /** Creates a playlist named by the trimmed input. A blank name sends
        nothing; success replaces the playlists, clears the input and hides the
        form; a failure keeps the name and the form. */
    method CreatePlaylist(outcome: Response<seq<Playlist>>) returns (sent: Option<Request>)
      requires Valid()
      modifies this
      ensures Valid()
      ensures Trim(old(newPlaylistName)) == "" ==> sent == None && State() == old(State()).(toast := ToastNameRequired)
      ensures Trim(old(newPlaylistName)) != "" ==> sent == Some(PostPlaylist(Trim(old(newPlaylistName)), ""))
      ensures Trim(old(newPlaylistName)) != "" && outcome.Ok? ==>
                State() == old(State()).(playlists := outcome.payload, user := old(user).(playlists := outcome.payload),
                                         newPlaylistName := "", showCreatePlaylist := false, toast := ToastPlaylistCreated)
      ensures Trim(old(newPlaylistName)) != "" && outcome.Err? ==> State() == old(State()).(toast := ToastCreateFailed)
    {
      if Trim(newPlaylistName) == "" {
        toast := ToastNameRequired;
        return None;
      }
      sent := Some(PostPlaylist(Trim(newPlaylistName), ""));
      match outcome {
        case Ok(list) =>
          playlists := list;
          user := user.(playlists := list);
          newPlaylistName := "";
          showCreatePlaylist := false;
          toast := ToastPlaylistCreated;
        case Err(_) =>
          toast := ToastCreateFailed;
      }
    }

    /** Deletes a playlist once the user confirms; the server's list replaces the playlists. */
    method DeletePlaylist(playlistId: string, confirmed: bool, outcome: Response<seq<Playlist>>) returns (sent: Option<Request>)
      requires Valid()
      modifies this
      ensures Valid()
      ensures !confirmed ==> sent == None && State() == old(State())
      ensures confirmed ==> sent == Some(Request.DeletePlaylist(playlistId))
      ensures confirmed && outcome.Ok? ==>
                State() == old(State()).(playlists := outcome.payload, user := old(user).(playlists := outcome.payload),
                                         toast := ToastPlaylistDeleted)
      ensures confirmed && outcome.Err? ==> State() == old(State()).(toast := ToastDeleteFailed)
    {
      if !confirmed {
        return None;
      }
      sent := Some(Request.DeletePlaylist(playlistId));
      match outcome {
        case Ok(list) =>
          playlists := list;
          user := user.(playlists := list);
          toast := ToastPlaylistDeleted;
        case Err(_) =>
          toast := ToastDeleteFailed;
      }
    }

    /** Adds a track (either shape) to the first playlist. With no playlist it
        sends nothing and opens the create form on the playlists tab; otherwise
        the server's playlist replaces every entry with the first playlist's id. */
    method AddTrackToPlaylist(track: JsTrack, outcome: Response<Playlist>) returns (sent: Option<Request>)
      requires Valid()
      modifies this
      ensures Valid()
      ensures old(playlists) == [] ==> sent == None
      ensures old(playlists) == [] ==>
                State() == old(State()).(toast := ToastCreatePlaylistFirst, activeTab := Playlists, showCreatePlaylist := true)
      ensures old(playlists) != [] ==> sent == Some(PostPlaylistTrack(old(playlists)[0].id, NormalizeForPlaylist(track)))
      ensures old(playlists) != [] && outcome.Ok? ==>
                var updated := ReplaceById(old(playlists), old(playlists)[0].id, outcome.payload);
                State() == old(State()).(playlists := updated, user := old(user).(playlists := updated),
                                         toast := TrackAddedToast(old(playlists)[0].name))
      ensures old(playlists) != [] && outcome.Err? ==> State() == old(State()).(toast := TrackFailureToast(outcome.message))
    {
      if |playlists| == 0 {
        toast := ToastCreatePlaylistFirst;
        activeTab := Playlists;
        showCreatePlaylist := true;
        return None;
      }
      var playlistId := playlists[0].id;
      var trackData := NormalizeForPlaylist(track);
      sent := Some(PostPlaylistTrack(playlistId, trackData));
      match outcome {
        case Ok(playlist) =>
          var updated := ReplaceById(playlists, playlistId, playlist);
          var firstName := playlists[0].name;
          playlists := updated;
          user := user.(playlists := updated);
          toast := TrackAddedToast(firstName);
        case Err(message) =>
          toast := TrackFailureToast(message);
      }
    }

    /** Removes a track from a playlist; the server's playlist replaces every entry with that id. */
    method RemoveTrackFromPlaylist(playlistId: string, trackId: Option<string>, outcome: Response<Playlist>) returns (sent: Request)
      requires Valid()
      modifies this
      ensures Valid()
      ensures sent == DeletePlaylistTrack(playlistId, trackId)
      ensures outcome.Ok? ==>
                var updated := ReplaceById(old(playlists), playlistId, outcome.payload);
                State() == old(State()).(playlists := updated, user := old(user).(playlists := updated), toast := ToastTrackRemoved)
      ensures outcome.Err? ==> State() == old(State()).(toast := ToastRemoveFailed)
    {
      sent := DeletePlaylistTrack(playlistId, trackId);
      match outcome {
        case Ok(playlist) =>
          var updated := ReplaceById(playlists, playlistId, playlist);
          playlists := updated;
          user := user.(playlists := updated);
          toast := ToastTrackRemoved;
        case Err(_) =>
          toast := ToastRemoveFailed;
      }
    }

    /** The play button of the card with this id; afterwards at most that card plays. */
    method TogglePlay(trackId: Option<string>)
      requires Valid()
      modifies this
      ensures Valid()
      ensures State() == old(State()).(currentlyPlaying := Toggled(old(currentlyPlaying), trackId))
      ensures currentlyPlaying == Idle || currentlyPlaying == Playing(trackId)
    {
      currentlyPlaying := Toggled(currentlyPlaying, trackId);
    }

    /** The `<audio>` element's end event: nothing plays any more. */
    method AudioEnded()
      requires Valid()
      modifies this
      ensures Valid()
      ensures State() == old(State()).(currentlyPlaying := Idle)
    {
      currentlyPlaying := Idle;
    }

    /** A tab button. */
    method SelectTab(tab: Tab)
      requires Valid()
      modifies this
      ensures Valid()
      ensures State() == old(State()).(activeTab := tab)
    {
      activeTab := tab;
    }

    /** The search input's change event. */
    method SetKeyword(text: string)
      requires Valid()
      modifies this
      ensures Valid()
      ensures State() == old(State()).(keyword := text)
    {
      keyword := text;
    }

    /** The playlist name input's change event. */
    method SetNewPlaylistName(text: string)
      requires Valid()
      modifies this
      ensures Valid()
      ensures State() == old(State()).(newPlaylistName := text)
    {
      newPlaylistName := text;
    }

    /** The "New Playlist" button shows or hides the form. */
    method ToggleCreatePlaylist()
      requires Valid()
      modifies this
      ensures Valid()
      ensures State() == old(State()).(showCreatePlaylist := !old(showCreatePlaylist))
    {
      showCreatePlaylist := !showCreatePlaylist;
    }

    /** The form's "Cancel" button hides it and keeps the typed name. */
    method CancelCreatePlaylist()
      requires Valid()
      modifies this
      ensures Valid()
      ensures State() == old(State()).(showCreatePlaylist := false)
    {
      showCreatePlaylist := false;
    }
  }

  /** Every card on the favorites tab shows a favorite, so its heart button
      always takes the removing branch. */
  lemma FavoritesTabCardIsFavorite(page: HomePage, i: nat)
    requires i < |page.favorites|
    ensures page.IsFavorite(CardFields(AsObject(page.favorites[i]), false).trackId)
  {
  }

  /** At most one track's audio plays: every card that shows its `<audio>`
      element carries the same track id. */
  lemma SingleAudioTrack(page: HomePage, c1: CardView, c2: CardView)
    requires page.AudioPlays(c1) && page.AudioPlays(c2)
    ensures c1.trackId == c2.trackId
  {
  }
}
