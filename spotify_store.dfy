/**
 * What the two Spotify edge functions share: the per-user credential table `user_spotify_tokens`,
 * the playlist table `user_playlists`, the replies of Spotify's token endpoint, and the trace of
 * effects (calls to Spotify and writes to the tables) a request performs, in order.
 */
module SpotifyStore {
  import opened Wrappers
  import opened Http

  type UserId = string

  /** A row of `user_spotify_tokens`; `expiresAt` is in milliseconds since the epoch. */
  datatype TokenRecord = TokenRecord(
    accessToken: string, refreshToken: string, expiresAt: int, spotifyUserId: Option<string>)

  /** The stored token is expired from its expiry instant on: `now >= expires_at`. */
  predicate Expired(rec: TokenRecord, now: int)
  {
    now >= rec.expiresAt
  }

  /** The expiry instant of a token granted at `now` for `expiresIn` seconds. */
  function ExpiryAt(now: int, expiresIn: int): int
  {
    now + expiresIn * 1000
  }

  /** A refreshed record: a new access token and expiry; the refresh token and Spotify id stay. */
  function Refreshed(rec: TokenRecord, accessToken: string, expiresAt: int): (r: TokenRecord)
    ensures r.refreshToken == rec.refreshToken && r.spotifyUserId == rec.spotifyUserId
    ensures r.accessToken == accessToken && r.expiresAt == expiresAt
  {
    rec.(accessToken := accessToken, expiresAt := expiresAt)
  }

  /** What Spotify's token endpoint answers: a grant (`ok`), or an error body. */
  datatype TokenReply =
    | Granted(accessToken: string, refreshToken: string, expiresIn: int)
    | Rejected(error: string)

  /** A Spotify user profile (`GET /v1/me`): its `id`, if any, and the rest of the JSON object. */
  datatype Profile = Profile(id: Option<string>, json: string)

  /** The answer of `GET /v1/me`: whether it was `ok`, and its parsed body. */
  datatype ProfileReply = ProfileReply(ok: bool, profile: Profile)

  /** A playlist item as Spotify lists it; `images` holds the image URLs in order. */
  datatype Playlist = Playlist(
    id: string, name: string, description: Option<string>, trackTotal: int, images: seq<string>)

  /** A row of `user_playlists`. */
  datatype PlaylistRow = PlaylistRow(
    userId: UserId, spotifyPlaylistId: string, name: string, description: Option<string>,
    trackCount: int, imageUrl: Option<string>, spotifyData: Playlist)

  /** The body of a request to the token endpoint. */
  datatype Grant = AuthorizationCode(code: Option<string>, redirectUri: string) | RefreshToken(refreshToken: string)

  /** An effect of a request: a call to Spotify, or a write to one of the tables. */
  datatype Effect =
    | TokenRequest(grant: Grant)
    | ApiGet(url: Url, bearer: string)
    | UpsertToken(user: UserId, record: TokenRecord)
    | UpdateToken(user: UserId, accessToken: string, expiresAt: int)
    | DeleteToken(user: UserId)
    | UpsertPlaylist(row: PlaylistRow)

  const TokenEndpoint := "https://accounts.spotify.com/api/token"
  const ApiBase := "https://api.spotify.com"
  const MeUrl := Url(ApiBase + "/v1/me", [])

  predicate IsTokenWrite(e: Effect) { e.UpsertToken? || e.UpdateToken? || e.DeleteToken? }

  /** `.select('*').eq('user_id', user).single()`: the row, unless the read failed or there is none. */
  function SelectToken(tokens: map<UserId, TokenRecord>, user: UserId, readOk: bool): (r: Option<TokenRecord>)
    ensures r.Some? <==> readOk && user in tokens
    ensures r.Some? ==> r.value == tokens[user]
  {
    if readOk && user in tokens then Some(tokens[user]) else None
  }

  /** `.update({access_token, expires_at}).eq('user_id', user)`: a failed write changes nothing. */
  function UpdatedTokens(tokens: map<UserId, TokenRecord>, user: UserId, accessToken: string, expiresAt: int, ok: bool)
    : (r: map<UserId, TokenRecord>)
    ensures r.Keys == tokens.Keys
    ensures forall u :: u in r && u != user ==> r[u] == tokens[u]
    ensures user in r ==> r[user] == if ok then Refreshed(tokens[user], accessToken, expiresAt) else tokens[user]
  {
    if ok && user in tokens then tokens[user := Refreshed(tokens[user], accessToken, expiresAt)] else tokens
  }

  /** The row `upsert` writes for one playlist item: the first image's URL, if there is one. */
  function RowOf(user: UserId, p: Playlist): (row: PlaylistRow)
    ensures row.userId == user && row.spotifyPlaylistId == p.id && row.spotifyData == p
    ensures row.name == p.name && row.description == p.description && row.trackCount == p.trackTotal
    ensures row.imageUrl.Some? <==> |p.images| > 0
    ensures |p.images| > 0 ==> row.imageUrl == Some(p.images[0])
  {
    PlaylistRow(user, p.id, p.name, p.description, p.trackTotal,
      if |p.images| > 0 then Some(p.images[0]) else None, p)
  }

  /**
   * The two tables. Rows of `user_spotify_tokens` are keyed by user; rows of `user_playlists` by
   * user and Spotify playlist id. Every write takes whether the database accepted it.
   */
  class Database {
    var tokens: map<UserId, TokenRecord>
    var playlists: map<(UserId, string), PlaylistRow>

    constructor (tokens: map<UserId, TokenRecord>, playlists: map<(UserId, string), PlaylistRow>)
      ensures this.tokens == tokens && this.playlists == playlists
    {
      this.tokens := tokens;
      this.playlists := playlists;
    }

    method UpsertTokenRow(user: UserId, rec: TokenRecord, ok: bool)
      modifies this
      ensures tokens == if ok then old(tokens)[user := rec] else old(tokens)
      ensures playlists == old(playlists)
    {
      if ok {
        tokens := tokens[user := rec];
      }
    }

    method UpdateTokenRow(user: UserId, accessToken: string, expiresAt: int, ok: bool)
      modifies this
      ensures tokens == UpdatedTokens(old(tokens), user, accessToken, expiresAt, ok)
      ensures playlists == old(playlists)
    {
      if ok && user in tokens {
        tokens := tokens[user := Refreshed(tokens[user], accessToken, expiresAt)];
      }
    }

    method DeleteTokenRow(user: UserId, ok: bool)
      modifies this
      ensures tokens == if ok then old(tokens) - {user} else old(tokens)
      ensures playlists == old(playlists)
    {
      if ok {
        tokens := tokens - {user};
      }
    }

    method UpsertPlaylistRow(row: PlaylistRow, ok: bool)
      modifies this
      ensures playlists == if ok then old(playlists)[(row.userId, row.spotifyPlaylistId) := row] else old(playlists)
      ensures tokens == old(tokens)
    {
      if ok {
        playlists := playlists[(row.userId, row.spotifyPlaylistId) := row];
      }
    }
  }
}
