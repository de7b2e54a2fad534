# v-music client state, modelled in Dafny

This project models the client-side logic of the v-music front end. That
front end searches a music API, keeps a user's favorites and playlists through
a backend, and guards its pages by sign-in state. Two parts of it are modelled:

- **The home page's state and handlers** (`frontend/src/pages/Home.js`), in
  `home.dfy`, with pure helpers in `tracks.dfy` and `js_values.dfy`.
  `Home.HomePage` is a class. Each `useState` slot is a field, and so is the
  session's `user`, which the page overwrites through `updateUser`. Each
  handler is a method. A handler that calls a server takes the server's
  answer as a parameter (`Ok(payload)` or `Err(message)`). It returns the
  request it would send (`Request`), so "no request is sent" is a returned
  `None`. Every method states its whole new state through the snapshot
  `State()`. Every method keeps `Valid()`: the page's favorites and playlists
  equal the user's, and the trending list holds at most twenty tracks.
- **The route guards and route table** (`frontend/src/App.js`), in
  `routes.dfy`. These are pure functions from the path and the session flags
  `(loading, isAuthenticated)` to what is shown. A chain of redirects is
  followed with `Follow`.

JavaScript's loose values are written out explicitly:

- A field that may be missing is an `Option`.
- Truthiness of a string, `a || b` and `String.prototype.trim` (with the
  ECMAScript white-space set) are functions in `JsValues`.
- The "currently playing" slot tells `null` (`Idle`) apart from an
  `undefined` id (`Playing(None)`), as `===` does.

Some behaviour of the code is easy to misread:

- A failed request leaves every collection as it was. A search response
  without `tracks.items` still clears the results to `[]`.
- The search request carries the keyword as typed, untrimmed.
- The playlist name is trimmed before it is sent.
- The toast after adding a track names the first playlist as it was before
  the response arrived.
- A card on the playlists tab holds the stored-shape object. When its track
  is not a favorite, its heart button passes that object to
  `addToFavorites`. That handler reads only the API fields. So the record
  sent for such a track has no id and no name, and it carries the defaults
  for artist, image and preview (`Tracks.FavoriteOfStoredShape`). Cards on
  the favorites tab are all favorites, so their heart always removes.
- The catch-all route redirects to `/` even while the session is loading.

- A blank search keyword does nothing at all (`Home.js` line 57). No
  default "trending" query replaces it; that substitution exists only in the
  separate `src/App.js` (line 13).
- A failed search keeps the previous results (`Home.js` lines 66-68); it
  does not empty them.

## Model

| member | source | states |
|---|---|---|
| JsValues.Or | frontend/src/pages/Home.js:166-170 | The or-fallback `a or b` is the first operand when it is truthy and the second otherwise, so the result is truthy exactly when either operand is. |
| JsValues.OrDefault | frontend/src/pages/Home.js:81-83 | The or-fallback to a literal returns the value or the default. The result is non-empty exactly when the value is truthy or the default is non-empty. |
| JsValues.TrimSpec | frontend/src/pages/Home.js:57 | `trim()` is the piece of its input that starts where `TrimStart` starts and is no longer than it; it has no white space at either end. It is empty, so the guard `!s.trim()` fires, exactly when the input is all white space. |
| JsValues.TrimStartSpec | frontend/src/pages/Home.js:119 | Dropping leading white space leaves a suffix. The dropped prefix is all white space, and the suffix starts with a non-white character. |
| JsValues.TrimEndSpec | frontend/src/pages/Home.js:119 | Dropping trailing white space leaves a prefix. The dropped suffix is all white space, and the prefix ends with a non-white character. |
| JsValues.TrimIdempotent | frontend/src/pages/Home.js:125 | Trimming a name that is already trimmed changes nothing. |
| Tracks.FirstArtistName | frontend/src/pages/Home.js:81 | `track.artists?.[0]?.name` is the first artist's name when the artist list exists and is non-empty, and absent otherwise. |
| Tracks.FirstImageUrl | frontend/src/pages/Home.js:82 | `track.album?.images?.[0]?.url` is the first image's url when the album and a non-empty image list exist, and absent otherwise. |
| Tracks.NormalizeFavorite | frontend/src/pages/Home.js:78-84 | The favorites record copies `id` and `name` as they are. The artist is never empty: the first artist's name when truthy, else 'Unknown'. The image and the preview are the API values when truthy, else ''. |
| Tracks.NormalizeForPlaylist | frontend/src/pages/Home.js:165-171 | Each field is the API field when truthy, else the stored field (for id and name, even when falsy), else the default: 'Unknown' for the artist, '' for image and preview. The artist is never empty. On an object of the API shape the record equals the favorites record, unless `id` or `name` is the empty string, which falls through to the absent stored field. |
| Tracks.PlaylistNormalizeStored | frontend/src/pages/Home.js:165-171 | A stored record with a non-empty artist comes back unchanged from the playlist normaliser. |
| Tracks.NormalizeIdempotent | frontend/src/pages/Home.js:165-171 | Normalising a record that either normaliser produced gives the same record again. |
| Tracks.FavoriteOfStoredShape | frontend/src/pages/Home.js:78-84 | A stored-shape object given to the favorites normaliser yields no id, no name, artist 'Unknown' and empty image and preview. |
| Tracks.FavoriteIgnoresStoredFields | frontend/src/pages/Home.js:78-84 | The favorites record depends on the API fields only. |
| Tracks.CardFields | frontend/src/pages/Home.js:208-213 | A card for an API track shows the same id, name, artist and image as the favorites record. It shows a play button exactly when that record's preview is non-empty. A card for a stored track shows the stored fields as they are. |
| Tracks.CardOfStored | frontend/src/pages/Home.js:209-213 | A card built from a stored record shows exactly that record's fields. |
| Tracks.HasTrackId | frontend/src/pages/Home.js:114 | `some(f => f.trackId === id)` holds exactly when some entry carries the id. |
| Tracks.ReplaceById | frontend/src/pages/Home.js:175-177 | The result has the same length and order as the input. Every entry with the target `_id` becomes the server's playlist. Every other entry is unchanged. |
| Tracks.ReplaceAbsent | frontend/src/pages/Home.js:195-197 | Replacing an id that no playlist carries leaves the list unchanged. |
| Tracks.ReplaceKeepsIds | frontend/src/pages/Home.js:175-177 | When the server's playlist keeps the target id, the list of ids is unchanged. Replacing a second time with the same playlist is then a no-op. |
| Home.TrackAddedToast | frontend/src/pages/Home.js:180 | The "added to playlist" toast quotes the playlist's name. |
| Home.TrendingSlice | frontend/src/pages/Home.js:48 | The trending list is the first `min(20, n)` items of the response. It is `[]` when the response has no items. It never holds more than 20. |
| Home.FavoriteFailureToast | frontend/src/pages/Home.js:89-96 | A failed add says "Already in favorites!" exactly when the server's message is 'Track already in favorites'. Otherwise it says the add failed. |
| Home.TrackFailureToast | frontend/src/pages/Home.js:181-188 | A failed add to a playlist says "Already in this playlist!" exactly when the server's message is 'Track already in playlist'. Otherwise it says the add failed. |
| Home.Toggled | frontend/src/pages/Home.js:227 | Clicking the playing card empties the slot; clicking any other card puts that card's id in it. Afterwards nothing plays, or only the clicked card plays. |
| Home.ToggleTwice | frontend/src/pages/Home.js:227 | Clicking one card twice stops playback, unless that card was already playing. |
| Home.FavoritesTabCardIsFavorite | frontend/src/pages/Home.js:391-392 | A card on the favorites tab carries the id of a favorite, so its heart button removes rather than adds. |
| Home.SingleAudioTrack | frontend/src/pages/Home.js:272-274 | Every card that renders its `<audio>` element carries the same track id, so at most one track plays. |
| Home.HomePage.constructor | frontend/src/pages/Home.js:10-28 | The initial state: empty lists and inputs, the trending tab, nothing playing, and the user's collections copied in. |
| Home.HomePage.IsFavorite | frontend/src/pages/Home.js:113-115 | `isFavorite(id)` holds exactly when some favorite has that `trackId`. |
| Home.HomePage.AudioPlays | frontend/src/pages/Home.js:272 | A card's audio renders exactly when the slot holds that card's id and the card has a truthy preview; with nothing playing, no audio renders. |
| Home.HomePage.LoadTrendingSongs | frontend/src/pages/Home.js:41-54 | The query is "trending 2024" with limit 20. On success the first twenty items replace the trending list. On failure only the toast changes. Loading ends either way. |
| Home.HomePage.SearchTracks | frontend/src/pages/Home.js:56-71 | A blank keyword sends nothing and changes nothing, not even the tab. Otherwise the search tab opens and the raw keyword is sent. On success the results (or `[]`) replace the list. On failure the list is kept. |
| Home.HomePage.AddToFavorites | frontend/src/pages/Home.js:76-97 | The favorites record is sent. On success the server's list becomes both `favorites` and `user.favorites`. On failure, the duplicate case included, only the toast changes. |
| Home.HomePage.RemoveFromFavorites | frontend/src/pages/Home.js:100-110 | A delete for the id is sent. On success the server's list replaces both copies. On failure only the toast changes. |
| Home.HomePage.ClickFavorite | frontend/src/pages/Home.js:241-248 | The heart sends a delete when the card's id is a favorite, and a post otherwise. On success the server's list replaces both copies and the toast of the handler taken is shown. On failure only that handler's failure toast changes. |
| Home.HomePage.CreatePlaylist | frontend/src/pages/Home.js:118-137 | A blank name sends nothing and leaves the playlists unchanged. Otherwise the trimmed name is sent. On success the server's list replaces both copies, the input is cleared and the form is hidden. On failure the name and the form are kept. |
| Home.HomePage.DeletePlaylist | frontend/src/pages/Home.js:140-151 | Without confirmation nothing is sent and nothing changes. With it, on success the server's list replaces both copies; on failure only the toast changes. |
| Home.HomePage.AddTrackToPlaylist | frontend/src/pages/Home.js:154-189 | With no playlists nothing is sent; the playlists tab opens with the create form shown. Otherwise the request targets `playlists[0]._id` and carries the playlist-normalised record. On success that playlist is replaced by id in both copies. On failure only the toast changes. |
| Home.HomePage.RemoveTrackFromPlaylist | frontend/src/pages/Home.js:192-205 | A delete for the playlist and track is sent. On success the playlist is replaced by id in both copies. On failure only the toast changes. |
| Home.HomePage.TogglePlay | frontend/src/pages/Home.js:224-230 | The slot becomes the toggled slot and nothing else changes. Afterwards nothing plays, or only the clicked id does. |
| Home.HomePage.AudioEnded | frontend/src/pages/Home.js:273 | When the audio ends the slot is emptied and nothing else changes. |
| Home.HomePage.SelectTab | frontend/src/pages/Home.js:311-317 | A tab button sets the active tab only. |
| Home.HomePage.SetKeyword | frontend/src/pages/Home.js:293-297 | Typing in the search box sets the keyword only. |
| Home.HomePage.SetNewPlaylistName | frontend/src/pages/Home.js:422-426 | Typing in the name box sets the name only. |
| Home.HomePage.ToggleCreatePlaylist | frontend/src/pages/Home.js:410-416 | "New Playlist" flips the form's visibility only. |
| Home.HomePage.CancelCreatePlaylist | frontend/src/pages/Home.js:431 | "Cancel" hides the form and keeps the typed name. |
| Routes.ProtectedRoute | frontend/src/App.js:9-25 | While loading it shows the loading screen, whatever the session. After that it renders the children exactly when the user is signed in, and otherwise redirects to /login. |
| Routes.PublicRoute | frontend/src/App.js:28-44 | While loading it shows the loading screen. After that it renders the children exactly when the user is signed out, and otherwise redirects to /. Once loading is over, exactly one of the two guards renders its children. |
| Routes.Route | frontend/src/App.js:46-76 | Unknown paths redirect to /. / is guarded by `ProtectedRoute`; /login and /signup by `PublicRoute`. A page renders exactly when the path is known, loading is over, and the path is / just when the user is signed in. |
| Routes.RedirectsSettle | frontend/src/App.js:24-73 | Once loading is over, any path renders a page within two redirects. A signed-in user ends on /. A signed-out user ends on /signup when they started there, and otherwise on /login. |
| Routes.UnknownPathTakesTwoHops | frontend/src/App.js:73 | A signed-out visit to an unknown path needs both redirects: first to /, then to /login. |
| Routes.FollowStable | frontend/src/App.js:46-74 | Following any number (at least two) of redirects ends at the same place, so there is no redirect loop. |
| Routes.LoadingSettles | frontend/src/App.js:12-22 | While loading, every path shows the loading screen within one redirect. |

## Left out

- Network calls are not modelled: the `fetch` to the search API and the
  `axios` calls to the backend. The server's answer is a parameter, and the
  request is a `Request` value rather than a URL. Path formatting and URL
  encoding are not modelled.
- The toast is modelled as the last message shown. Its 2.5-second
  auto-dismiss timer is not modelled.
- The blocking `window.confirm` of `deletePlaylist` is the boolean
  `confirmed`.
- `isLoading` is true only while a request is in flight. A handler here runs
  to completion, so only its final value, false, is observable.
- Races between concurrent handlers (last write wins) are not modelled. The
  model is sequential.
- The mount effect runs `loadTrendingSongs`. That is the constructor
  followed by `LoadTrendingSongs`.
- The effect on `user` falls back to `[]` when the user has no favorites or no
  playlists. `User` always carries both sequences, and `Valid()` keeps them
  equal to the page's, so re-running the effect changes nothing.
- Uniqueness of favorites and of the tracks in a playlist is enforced by the
  backend. Only its error message is matched here, so no uniqueness is
  claimed.
- Search results are not capped on the client. Only the API's `limit=20`
  bounds them, and the API is not part of this model.
- Rendering is not modelled: the JSX, CSS classes, the `<audio>` element
  itself, the track counts, and the navbar greeting.
- The logout button, `AuthContext`, `Login` and `Signup` are not part of
  this model.
- JSON values other than strings and absent fields are not modelled: a
  numeric or `null` track id, for example.
- Routes.Route: path matching is exact string equality. React Router's
  case-insensitive matching and trailing-slash tolerance are not modelled.
- The separate `src/App.js` prototype is not part of this model. Its only
  logic is that an empty keyword becomes "trending".
