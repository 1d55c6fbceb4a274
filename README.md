# Playlist-to-books: a Dafny model of the Spotify edge functions and the playlist analysis

This project models the server-side core of a web application. The application connects a
user's Spotify account and suggests books from the genres and moods of a playlist. Four pieces
of the source are modelled.

- **`spotify-auth`** is the OAuth edge function. The callback GET redirects to the `/auth` path on
  the origin of the callback request itself (the function's own host), with `error`, or with
  `code` and `state`, or with nothing. The POST actions are:
  - `get_auth_url` builds the authorization URL: client id, fixed redirect URI, six scopes, and
    a `state` taken from `crypto.randomUUID()`;
  - `exchange_code` trades the code for tokens, fetches `/v1/me` and upserts the user's
    `user_spotify_tokens` row;
  - `get_profile` refreshes an expired token, then fetches the profile;
  - `disconnect` deletes the row.
- **`spotify-data`** is the data proxy. It loads the stored token and refreshes it when
  `now >= expires_at`; a failed refresh aborts the request. It then reads playlists, top tracks,
  top artists or recently played tracks. Playlists are also upserted into `user_playlists`, one
  row per item.
- **`analyze-playlist`** validates the posted playlist. It counts, for every genre, the tracks
  whose lowercased `"name artist"` contains one of the genre's keywords, and collects the moods
  the same way. If no genre matched, it falls back to fixed Pop/Rock/Alternative counts. It then
  recommends books: up to two for each of the three highest-counted genres, padded with two
  general books when fewer than three were found, and cut at four.
- **The analyzer page's parser** (`parsePlaylistData`) turns free text into tracks: one per
  non-blank line, `Artist - Song` before `Song by Artist`, otherwise a bare title by
  "Unknown Artist". The guard before it refuses a blank name or blank data.

Modules, leaf first:
- `Wrappers` (Option), `JsString` (the JavaScript string operations used), `Http` (URLs and
  responses), `Tracks`;
- `PlaylistParser`, `KeywordClassifier`, `BookRecommender`, `AnalyzePlaylist`;
- `SpotifyStore` (the two tables as a `Database` class, token records, the effect trace),
  `SpotifyAuth`, `SpotifyData`.

Each edge function is a pure function from the table contents, the request and an environment
value to an outcome. The outcome holds the response, the new table contents, and the effects in
order: calls to Spotify and writes to the tables. The environment holds everything the function
meets outside itself: the resolved user, the clock, the upstream replies and whether each
database operation succeeds. Beside each function is an imperative handler over the `Database`
object that is proved equal to it. The loops of the source are methods with invariants:
- the playlist parser's line loop;
- the classifier's nested track/genre/mood loops;
- the recommendation push loop;
- the playlist upsert loop.

### Behaviour of the code worth knowing
- A failed token refresh does not fail `get_profile`. The function goes on with the old token
  and answers "not connected" only if the profile fetch then fails
  (supabase/functions/spotify-auth/index.ts:172-203).
- The results of the token `update` and of every playlist `upsert` are never checked. A failed
  token `select` is answered as "not connected" (`spotify-auth`) or "Spotify not connected"
  (`spotify-data`).
- `disconnect` answers "Failed to disconnect Spotify" when the delete fails.
  `SpotifyAuth.DisconnectIdempotent` proves idempotence for deletes that succeed.
- Every error answer, "Unauthorized" included, has status 400.
- The callback's redirect is built from `url.origin` of the callback request, which Spotify sends to
  the function's own URL (supabase/functions/spotify-auth/index.ts:26, 35, 45, 100). The browser
  therefore lands on `/auth` of the function's host, not of the front-end site that reads `code`
  and `state`, although the comments at lines 22 and 32 speak of the front end.
- A `get_profile` that follows `exchange_code` fetches the profile from Spotify again;
  `SpotifyAuth.ExchangeThenProfile` states what it then does.

## Model

| member | source | states |
|---|---|---|
| Http.QueryValueSpec | supabase/functions/spotify-auth/index.ts:17-19 | `searchParams.get` finds a value exactly when some parameter has that name, and the value belongs to a parameter of that name |
| Http.QueryValueAt | supabase/functions/spotify-auth/index.ts:17-19 | the value found is the one at the first position with that name |
| Http.Status | supabase/functions/spotify-auth/index.ts:248-257 | the status is 400 exactly for an error answer and 302 exactly for a redirect |
| JsString.IndexOfFrom | src/components/ui/playlist-analyzer.tsx:45-48 | `indexOf(sub, from)`: a result is an occurrence at or after `from`, and no occurrence lies between `from` and the result (none at all when there is no result) |
| JsString.Includes | src/components/ui/playlist-analyzer.tsx:45-47 | `includes(sub)` holds exactly when `sub` occurs somewhere |
| JsString.PieceEnd | src/components/ui/playlist-analyzer.tsx:46-48 | the piece that starts at `from` ends at the next separator, or at the end of the string, with no separator in between |
| JsString.SplitLimit2 | src/components/ui/playlist-analyzer.tsx:45-48 | `split(sep, 2)` gives one or two pieces: one (the whole string) exactly when `sep` does not occur |
| JsString.SplitLimit2Pieces | src/components/ui/playlist-analyzer.tsx:45-48 | the two pieces are the text before the first separator and the text after it up to the next separator or the end |
| JsString.FirstTwoPiecesUnique | src/components/ui/playlist-analyzer.tsx:45-48 | those two pieces are determined by the string and the separator |
| JsString.Split | src/components/ui/playlist-analyzer.tsx:38 | `split(c)` gives at least one piece, and no piece contains the separator |
| JsString.JoinSplit | src/components/ui/playlist-analyzer.tsx:38 | joining the pieces of `split(c)` with `c` gives back the string |
| JsString.Join | supabase/functions/spotify-auth/index.ts:71-78 | `join(' ')` puts one separator between each two pieces: the result starts with the first piece, the separator follows it when there is a second piece, and the result is at least as long as the number of separators |
| JsString.SplitJoin | supabase/functions/spotify-auth/index.ts:71-78 | splitting a join of separator-free pieces gives back the pieces |
| JsString.Trim | src/components/ui/playlist-analyzer.tsx:55-58 | `trim()` starts and ends with a kept character, and is empty exactly when the string is all white space |
| JsString.TrimIsSlice | src/components/ui/playlist-analyzer.tsx:55-58 | `trim()` is the slice of the string between a white-space prefix and a white-space suffix |
| JsString.TrimOfTrimmed | src/components/ui/playlist-analyzer.tsx:55-58 | an already trimmed string is unchanged by `trim()` |
| JsString.TrimIdempotent | src/components/ui/playlist-analyzer.tsx:55-58 | trimming twice is trimming once |
| JsString.ToLower | supabase/functions/analyze-playlist/index.ts:56 | `toLowerCase()` keeps the length and lowers every ASCII capital at its own position |
| JsString.ToLowerIgnoresCase | supabase/functions/analyze-playlist/index.ts:56 | two texts lower to the same text exactly when they differ only in the case of ASCII letters, so the keyword match ignores that case |
| JsString.ToLowerIdempotent | supabase/functions/analyze-playlist/index.ts:56 | the lowered text has no ASCII capital, every other character is kept, and lowering it again changes nothing |
| PlaylistParser.NonBlankLines | src/components/ui/playlist-analyzer.tsx:38 | `split('\n').filter(line => line.trim())` yields lines that are not blank and hold no line break |
| PlaylistParser.KeepNonBlank | src/components/ui/playlist-analyzer.tsx:38 | the filter never yields more lines than it is given, and no line it yields is blank |
| PlaylistParser.KeepNonBlankMembers | src/components/ui/playlist-analyzer.tsx:38 | the filter keeps exactly the lines whose trim is non-empty, each as many times as it occurs in the input, and no other line |
| PlaylistParser.KeepNonBlankAppend | src/components/ui/playlist-analyzer.tsx:38 | the filter keeps the lines' order: filtering two blocks of lines in a row is filtering each block, in the same order |
| PlaylistParser.ParseLine | src/components/ui/playlist-analyzer.tsx:42-58 | every emitted name and artist is already trimmed: trimming it again changes nothing |
| PlaylistParser.DashRule | src/components/ui/playlist-analyzer.tsx:45-46 | a line with ` - ` gives artist = the text before the first ` - ` and name = the text after it up to the next one, both trimmed |
| PlaylistParser.ByRule | src/components/ui/playlist-analyzer.tsx:47-48 | a line with ` by ` and no ` - ` gives name = the text before the first ` by ` and artist = the text after it up to the next one, both trimmed |
| PlaylistParser.BareTitleRule | src/components/ui/playlist-analyzer.tsx:49-53 | a line with neither separator gives name = the trimmed line and artist = "Unknown Artist" |
| PlaylistParser.UnknownArtistTrimmed | src/components/ui/playlist-analyzer.tsx:51-57 | trimming "Unknown Artist" leaves it as it is |
| PlaylistParser.ExtraPiecesDiscarded | src/components/ui/playlist-analyzer.tsx:45-46 | for `A - B - C` with pieces free of `-`: artist `A`, name `B`; the third piece is discarded |
| PlaylistParser.ParseLines | src/components/ui/playlist-analyzer.tsx:41-59 | one track per line |
| PlaylistParser.ParseTrackLine | src/components/ui/playlist-analyzer.tsx:42-58 | the loop body, which reassigns `artist` and `name`, yields the track the line rules define |
| PlaylistParser.ParsePlaylistData | src/components/ui/playlist-analyzer.tsx:37-62 | exactly one track per input line whose trim is non-empty, in input order, each parsed by the line rules |
| PlaylistParser.AnalyzePlaylist | src/components/ui/playlist-analyzer.tsx:64-80 | refused exactly when the name or the data is blank; the "no valid tracks" error only when no line is non-blank; otherwise the parsed tracks are submitted under the name |
| PlaylistParser.NonBlankDataHasTrack | src/components/ui/playlist-analyzer.tsx:65-80 | data with a non-white-space character parses to at least one track, so the "no valid tracks" error cannot follow a passed guard |
| KeywordClassifier.TableIndex | supabase/functions/analyze-playlist/index.ts:29-40 | every genre has a position in the genre table |
| KeywordClassifier.GenresListed | supabase/functions/analyze-playlist/index.ts:29-40 | every genre is in the genre table |
| KeywordClassifier.MoodsListed | supabase/functions/analyze-playlist/index.ts:42-49 | every mood is in the mood table |
| KeywordClassifier.SearchText | supabase/functions/analyze-playlist/index.ts:56 | the searched text is as long as the name, a space and the artist together, and holds no upper-case ASCII letter, so the matching ignores ASCII case |
| KeywordClassifier.MatchedGenres | supabase/functions/analyze-playlist/index.ts:59-63 | a genre is matched by a track exactly when the track's lowercased text contains one of the genre's keywords |
| KeywordClassifier.MatchedMoods | supabase/functions/analyze-playlist/index.ts:66-70 | a mood is matched by a track exactly when the track's lowercased text contains one of the mood's keywords |
| KeywordClassifier.Increment | supabase/functions/analyze-playlist/index.ts:61 | the dictionary grows by at most one entry, and an entry it gains is the genre with count 1, at the end |
| KeywordClassifier.IncrementSpec | supabase/functions/analyze-playlist/index.ts:61 | `counts[g] = (counts[g] \|\| 0) + 1`: an existing key keeps its place and gains one, nothing else changes; a new key is appended with count 1 |
| KeywordClassifier.CountMatching | supabase/functions/analyze-playlist/index.ts:55-63 | the number of tracks matching a genre never exceeds the number of tracks |
| KeywordClassifier.FirstMatch | supabase/functions/analyze-playlist/index.ts:55-63 | the index of the first track matching the genre: that track matches and no earlier one does |
| KeywordClassifier.FirstMatchFound | supabase/functions/analyze-playlist/index.ts:55-63 | some track matches the genre exactly when its count is positive |
| KeywordClassifier.TallyAppend | supabase/functions/analyze-playlist/index.ts:55-63 | one more track adds its matched genres, in table order, to the counts of the tracks before it |
| KeywordClassifier.Tally | supabase/functions/analyze-playlist/index.ts:52-63 | every count in the genre dictionary is between 1 and the number of tracks |
| KeywordClassifier.TallySpec | supabase/functions/analyze-playlist/index.ts:55-63 | the counting loop's result has distinct keys; each holds the number of matching tracks; it has a key exactly for each genre with a match; keys are ordered by first matching track, ties by table order |
| KeywordClassifier.GenreCountsMeaning | supabase/functions/analyze-playlist/index.ts:52-63 | before any fallback, each genre's count equals the number of tracks matching it, so every count is between 1 and the number of tracks; keys are distinct and in insertion order |
| KeywordClassifier.NoGenreDetected | supabase/functions/analyze-playlist/index.ts:52-74 | the counts are empty exactly when no track matches any genre keyword |
| KeywordClassifier.MoodsFound | supabase/functions/analyze-playlist/index.ts:53-70 | the detected moods hold no mood twice, as a `Set` does |
| KeywordClassifier.MoodsFoundAppend | supabase/functions/analyze-playlist/index.ts:66-70 | one more track adds its matched moods, in table order, after the moods already found |
| KeywordClassifier.AddMoodsSpec | supabase/functions/analyze-playlist/index.ts:66-70 | `detectedMoods.add` keeps the moods free of duplicates and adds exactly the matched moods |
| KeywordClassifier.MoodsFoundSpec | supabase/functions/analyze-playlist/index.ts:53-85 | a mood is reported exactly when some track matches it, and none twice |
| KeywordClassifier.DetectGenresAndMoods | supabase/functions/analyze-playlist/index.ts:52-71 | the nested loop yields exactly the genre counts and the mood list defined above |
| KeywordClassifier.CountGenres | supabase/functions/analyze-playlist/index.ts:59-63 | the inner genre loop adds one track's matched genres to the counts |
| KeywordClassifier.AddTrackMoods | supabase/functions/analyze-playlist/index.ts:66-70 | the inner mood loop adds one track's matched moods to the set |
| BookRecommender.Insert | supabase/functions/analyze-playlist/index.ts:110-111 | one insertion step of the sort gives one entry more, the inserted one among them |
| BookRecommender.SortByCount | supabase/functions/analyze-playlist/index.ts:110-111 | the sort keeps the number of entries |
| BookRecommender.SortByCountSpec | supabase/functions/analyze-playlist/index.ts:110-111 | the stable sort is ordered by non-increasing count, is a permutation, and keeps the entries of each count in insertion order |
| BookRecommender.TopEntries | supabase/functions/analyze-playlist/index.ts:110-112 | `.slice(0, 3)` of the sorted entries: min(3, n) entries |
| BookRecommender.TopEntriesSpec | supabase/functions/analyze-playlist/index.ts:110-113 | the top genres are min(3, n) entries of the counts, by non-increasing count; no entry left out has a higher count than one kept; within each count they are the first entries in insertion order |
| BookRecommender.BooksOfSpec | supabase/functions/analyze-playlist/index.ts:115-221 | a genre gives two books or none, and none exactly for Country, R&B and Indie |
| BookRecommender.GenreBooks | supabase/functions/analyze-playlist/index.ts:217-221 | at most two books for each top genre |
| BookRecommender.GenreBooksSpec | supabase/functions/analyze-playlist/index.ts:217-221 | the genre books number an even count, at most two per top genre, and are exactly the books of the top genres |
| BookRecommender.Recommendations | supabase/functions/analyze-playlist/index.ts:217-241 | never fewer than two books and never more than four |
| BookRecommender.RecommendationsSpec | supabase/functions/analyze-playlist/index.ts:217-241 | always two or four books; the two general books follow the genre books exactly when fewer than three genre books were found; the list is cut at four |
| BookRecommender.RecommendationsFromTopGenres | supabase/functions/analyze-playlist/index.ts:110-241 | every recommended book is a general book or a book of a top genre |
| BookRecommender.GenerateBookRecommendations | supabase/functions/analyze-playlist/index.ts:106-241 | the push loop yields the recommendations the genre counts define; the moods argument is never read |
| AnalyzePlaylist.HandleAnalyzeRequest | supabase/functions/analyze-playlist/index.ts:15-103 | the handler answers the pre-flight, the validation error, or the analysis of the posted tracks with the fallback applied |
| AnalyzePlaylist.AnalyzeResult | supabase/functions/analyze-playlist/index.ts:15-103 | the answer is the validation error exactly for a POST whose body is refused; an analysis always reports some genre, no mood twice, and two to four books |
| AnalyzePlaylist.ValidationRule | supabase/functions/analyze-playlist/index.ts:24-102 | status 400 with "Invalid playlist data" exactly when the name is falsy or `tracks` is not an array; an empty array is analysed |
| AnalyzePlaylist.GenresReported | supabase/functions/analyze-playlist/index.ts:55-87 | the reported genres are the fallback when no track matches a genre, and the keyword counts otherwise; the moods are those found |
| AnalyzePlaylist.Fallback | supabase/functions/analyze-playlist/index.ts:74-78 | the fallback dictionary has three distinct genres, each with a count at most the number of tracks |
| AnalyzePlaylist.FallbackSpec | supabase/functions/analyze-playlist/index.ts:74-78 | the fallback keys are Pop, Rock, Alternative in that order; the counts sum to at most the number of tracks, and Pop's is at least the two equal others |
| AnalyzePlaylist.FallbackRecommendations | supabase/functions/analyze-playlist/index.ts:74-241 | with the fallback, the top genres are Pop, Rock, Alternative and the books are Pop's two, then Rock's two |
| SpotifyStore.Refreshed | supabase/functions/spotify-data/index.ts:66-72 | a refresh changes only the access token and the expiry; the refresh token and the Spotify id stay |
| SpotifyStore.SelectToken | supabase/functions/spotify-data/index.ts:32-40 | the single-row select finds the user's row exactly when the read succeeds and the row exists |
| SpotifyStore.UpdatedTokens | supabase/functions/spotify-data/index.ts:66-72 | the update touches only the user's row, and only when it succeeds |
| SpotifyStore.RowOf | supabase/functions/spotify-data/index.ts:95-105 | the upserted row is keyed by user and playlist id, copies the name, description and track total, keeps the item, and has an image URL exactly when the item has an image: the first image's URL |
| SpotifyStore.Database.UpsertTokenRow | supabase/functions/spotify-auth/index.ts:132-140 | a successful upsert replaces the user's row; the playlist table is untouched |
| SpotifyStore.Database.UpdateTokenRow | supabase/functions/spotify-data/index.ts:66-72 | the table becomes the updated tokens; the playlist table is untouched |
| SpotifyStore.Database.DeleteTokenRow | supabase/functions/spotify-auth/index.ts:231-234 | a successful delete removes the user's row; the playlist table is untouched |
| SpotifyStore.Database.UpsertPlaylistRow | supabase/functions/spotify-data/index.ts:95-105 | a successful upsert replaces the row under (user, playlist id); the token table is untouched |
| SpotifyAuth.AuthorizeUrl | supabase/functions/spotify-auth/index.ts:80-87 | the URL is Spotify's authorize endpoint asking for the code flow, for the given client id, carrying the given `state` |
| SpotifyAuth.CallbackRedirect | supabase/functions/spotify-auth/index.ts:15-48 | the redirect goes to the `/auth` path on the origin of the callback request (the function's host), with at most two parameters, each with the value the callback received under that name |
| SpotifyAuth.ExchangeCode | supabase/functions/spotify-auth/index.ts:95-154 | the code is sent to the token endpoint first; the answer is a success exactly when the exchange is granted and the row is stored, and the stored row then holds the returned profile's Spotify id; an error changes nothing; no other user's row changes |
| SpotifyAuth.GetProfile | supabase/functions/spotify-auth/index.ts:156-228 | `get_profile` never answers an error, adds or removes no row, and changes no row but the user's |
| SpotifyAuth.Disconnect | supabase/functions/spotify-auth/index.ts:230-244 | a success leaves the table without the user's row and with every other row; a failure changes nothing |
| SpotifyAuth.HandleAuth | supabase/functions/spotify-auth/index.ts:9-257 | only a POST by a signed-in user does anything, and it changes, adds or removes no row but that user's |
| SpotifyAuth.ExchangeCodeOn | supabase/functions/spotify-auth/index.ts:95-154 | `exchange_code` over the database performs the exchange the pure model defines |
| SpotifyAuth.GetProfileOn | supabase/functions/spotify-auth/index.ts:156-228 | `get_profile` over the database, with its in-place token update, performs what the pure model defines |
| SpotifyAuth.DisconnectOn | supabase/functions/spotify-auth/index.ts:230-244 | `disconnect` over the database performs what the pure model defines |
| SpotifyAuth.HandleAuthRequest | supabase/functions/spotify-auth/index.ts:9-257 | the whole handler over the database performs what the pure model defines, and never touches the playlist table |
| SpotifyAuth.CallbackRule | supabase/functions/spotify-auth/index.ts:15-48 | the callback answers 302 to `/auth`: with `error` when present, even beside `code` and `state`; else with `code` and `state` when both are present; else with no parameters. It touches neither the table nor Spotify |
| SpotifyAuth.UnauthorizedRule | supabase/functions/spotify-auth/index.ts:56-63 | a POST without a resolved user answers 400 "Unauthorized" and does nothing |
| SpotifyAuth.ScopesHaveNoSpace | supabase/functions/spotify-auth/index.ts:71-78 | no scope contains a space |
| SpotifyAuth.ScopeStringLists | supabase/functions/spotify-auth/index.ts:71-78 | the scope string splits on spaces back into the six scopes |
| SpotifyAuth.AuthorizeUrlQuery | supabase/functions/spotify-auth/index.ts:82-87 | the authorization URL carries the five parameters with their values |
| SpotifyAuth.AuthorizeQueryLookup | supabase/functions/spotify-auth/index.ts:82-87 | each of the five parameters is found by name with its value |
| SpotifyAuth.AuthUrlRule | supabase/functions/spotify-auth/index.ts:67-93 | `get_auth_url` returns the authorize endpoint with code flow, the client id, the fixed redirect URI, exactly the six scopes, and the same `state` it returns; nothing is stored or called |
| SpotifyAuth.ExchangeRule | supabase/functions/spotify-auth/index.ts:95-154 | a refused exchange fails with Spotify's error and changes nothing. A granted one stores the new tokens, `now + expires_in*1000` and the profile id under the user, and leaves other users alone; if that write fails, it answers "Failed to store Spotify tokens" |
| SpotifyAuth.ProfileWithoutRecord | supabase/functions/spotify-auth/index.ts:158-169 | without a row, `get_profile` answers "not connected" with no call and no write |
| SpotifyAuth.ProfileRefreshRule | supabase/functions/spotify-auth/index.ts:172-227 | a refresh happens exactly when `now >= expires_at`. A granted refresh changes only the access token and the expiry (nothing when the update fails), and the new token is used; a refused one keeps the row and the old token. The answer is "connected" exactly when the profile fetch succeeds, and the row is never removed |
| SpotifyAuth.DisconnectRule | supabase/functions/spotify-auth/index.ts:230-244 | `disconnect` removes exactly the user's row, or fails with "Failed to disconnect Spotify" and changes nothing |
| SpotifyAuth.DisconnectIdempotent | supabase/functions/spotify-auth/index.ts:230-244 | when deletes succeed, disconnecting twice leaves the table as once, with the same answer |
| SpotifyAuth.InvalidActionRule | supabase/functions/spotify-auth/index.ts:246 | any other action answers "Invalid action" and does nothing |
| SpotifyAuth.ExchangeThenProfile | supabase/functions/spotify-auth/index.ts:95-227 | after a stored exchange, `get_profile` before expiry uses the new token without a refresh and is connected when the fetch succeeds |
| SpotifyData.TopUrl | supabase/functions/spotify-data/index.ts:114-147 | the top-items URL carries the given `time_range`, `medium_term` when there is none, and `limit=50` |
| SpotifyData.AccessFor | supabase/functions/spotify-data/index.ts:42-78 | a refresh is requested exactly when the stored token is expired; the token is usable unless that refresh is refused; a usable token's table has the same rows, and only the user's row can differ |
| SpotifyData.StoredPlaylists | supabase/functions/spotify-data/index.ts:94-106 | the upserts remove no row, and other users' rows are left as they were |
| SpotifyData.Dispatch | supabase/functions/spotify-data/index.ts:80-175 | every known action calls Spotify and the unknown one does nothing; only a successful `get_playlists` changes the playlist table, and never other users' rows |
| SpotifyData.HandleData | supabase/functions/spotify-data/index.ts:9-186 | no credential row is added or removed; only the signed-in user's rows of either table can change; an error answer leaves the playlist table as it was |
| SpotifyData.UpsertEffects | supabase/functions/spotify-data/index.ts:94-106 | one upsert per item, in item order |
| SpotifyData.ActionOf | supabase/functions/spotify-data/index.ts:80-175 | each action string selects its own case, and every other value the unknown action |
| SpotifyData.StorePlaylists | supabase/functions/spotify-data/index.ts:94-106 | the upsert loop leaves the playlist table as the stored playlists and issues one upsert per item; the token table is untouched |
| SpotifyData.DispatchOn | supabase/functions/spotify-data/index.ts:80-175 | the action switch over the database performs what the pure dispatch defines |
| SpotifyData.HandleDataRequest | supabase/functions/spotify-data/index.ts:9-186 | the whole handler, with `accessToken` reassigned on refresh, performs what the pure model defines |
| SpotifyData.GuardRule | supabase/functions/spotify-data/index.ts:20-40 | no user answers "Unauthorized"; no row or a failed read answers "Spotify not connected", whatever the action; nothing is touched; every error is status 400 |
| SpotifyData.DispatchBearer | supabase/functions/spotify-data/index.ts:80-175 | every data call carries the token in use, and the dispatch makes no token request and no token write |
| SpotifyData.FreshTokenRule | supabase/functions/spotify-data/index.ts:42-48 | while `now < expires_at` the stored token is sent unchanged, with no refresh and no token write |
| SpotifyData.ExpiredTokenRule | supabase/functions/spotify-data/index.ts:44-78 | an expired token is refreshed first. A grant changes only the user's access token and expiry, and the new token is sent. A refusal fails with "Failed to refresh Spotify token" before any data call and changes nothing |
| SpotifyData.StoredPlaylistsSpec | supabase/functions/spotify-data/index.ts:94-106 | every successful upsert leaves a row under (user, playlist id); every changed row is one of the listing's; other users' rows are untouched |
| SpotifyData.UsableAccess | supabase/functions/spotify-data/index.ts:42-175 | with a usable token, the outcome is the action's, after the refresh's effects |
| SpotifyData.PlaylistsFailureRule | supabase/functions/spotify-data/index.ts:87-89 | a failed listing answers "Failed to fetch playlists" and writes no playlist |
| SpotifyData.ItemsRule | supabase/functions/spotify-data/index.ts:114-173 | top tracks, top artists and recently played make one call to their endpoint with the token in use and write no playlist; a failed listing answers "Failed to fetch top tracks", "Failed to fetch top artists" or "Failed to fetch recently played"; otherwise the items are passed on unchanged |
| SpotifyData.PlaylistsRule | supabase/functions/spotify-data/index.ts:80-112 | a listing of N items: one listing call with the token in use, then exactly N upserts in order; the table is their result and the answer is the same N items |
| SpotifyData.EndpointRule | supabase/functions/spotify-data/index.ts:81-157 | top tracks and top artists ask for the given `time_range`, `medium_term` by default; every endpoint asks for `limit=50` |
| SpotifyData.InvalidActionRule | supabase/functions/spotify-data/index.ts:175 | an unknown action answers "Invalid action" only after the token check and any refresh; it calls no data endpoint and writes no playlist |

## Left out
- HTTP serving, CORS header values, the Supabase client, `Deno.env` and `btoa` are not modelled. Upstream and database replies are inputs of each request (`AuthEnv`, `DataEnv`).
- `crypto.randomUUID()` is an input. Two calls giving different `state` values cannot be shown from the code.
- URL building and percent-encoding (`URL`, `URLSearchParams`) are not modelled. A URL is its base and its unencoded query pairs, so the `time_range` that spotify-data interpolates into the URL unencoded is not distinguished from an encoded one.
- `Date` and ISO strings are not modelled. The clock is one integer `now` in milliseconds per request, and `expires_at` is an integer.
- AnalyzePlaylist.Fallback: `Math.floor(n * 0.4)` and `Math.floor(n * 0.3)` are floating-point products; the model uses the integer quotients `n*4/10` and `n*3/10` they approximate.
- The second `await req.json()` (supabase/functions/spotify-auth/index.ts:96; supabase/functions/spotify-data/index.ts:115, 136) reads a body already read at spotify-auth:65 and spotify-data:29. On a real request that second read rejects, so `exchange_code`, `get_top_tracks` and `get_top_artists` would answer 400. The model gives each request one parsed body, which is what the code evidently intends.
- The results of the token `update` and of each playlist `upsert` are not checked by the code. The model applies a write only when it succeeds and never lets its failure change the answer.
- Concurrent requests are not modelled, including two refreshes for one user racing. The model is sequential.
- JsString.ToLower: lowers ASCII letters only, not the full Unicode case mapping of `toLowerCase`. Two consequences follow. Some non-ASCII capitals lower to ASCII letters: U+212A KELVIN SIGN lowers to `k`, so a track named "ROC\u212A" matches Rock in the code (supabase/functions/analyze-playlist/index.ts:56) but not in the model. Some capitals lower to more than one code unit (U+0130 lowers to two), so "keeps the length" holds in the model only.
- A request without an `Authorization` header is not modelled as such. In the code, `authHeader.replace` then throws a `TypeError` (supabase/functions/spotify-auth/index.ts:56-57; supabase/functions/spotify-data/index.ts:20-21), and the catch block answers 400 with that error's own message. The model treats such a request as one with no resolved user: the status is the same 400, but the model's message is "Unauthorized", not the `TypeError`'s.
- Malformed JSON bodies and fields of unexpected type are not modelled; `code`, `state`, `action` and `time_range` are optional strings. For analyze-playlist, `tracks` is an array of well-formed tracks or another JSON value.
- A Spotify playlist item without `tracks` (read as `playlist.tracks.total`) is not modelled: `trackTotal` is always present. Neither upsert names its conflict key (supabase/functions/spotify-auth/index.ts:132-140, supabase/functions/spotify-data/index.ts:95-105); the model takes it to be `user_id` for `user_spotify_tokens` (an upsert replaces the user's row) and user and playlist id for `user_playlists`.
- The analyzer page's saving of the analysis to `playlist_analysis`, its toasts and its React state are not modelled, nor are the other UI components and hooks.
- The OAuth `state` check happens only in the browser (src/components/ui/spotify-connect.tsx:26); the server never compares `state`. The model keeps `state` in the request and does not read it, as the server does.
- `console.error` logging is not modelled.
