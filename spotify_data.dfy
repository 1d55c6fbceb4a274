/**
 * The `spotify-data` edge function: for a signed-in user with stored Spotify tokens, refresh an
 * expired access token (aborting when that fails), then read playlists, top tracks, top artists
 * or recently played tracks from Spotify; playlists are also stored, one row per item.
 */
module SpotifyData {
  import opened Wrappers
  import opened Http
  import opened SpotifyStore

  /** The CORS pre-flight, or a POST whose JSON body holds `action` and maybe `time_range`. */
  datatype DataRequest = Options | Post(action: Option<string>, timeRange: Option<string>)

  /** An item of a Spotify listing that is passed on unchanged (its JSON text). */
  type Item = string

  /**
   * What the request meets outside the function: the user its bearer token resolves to, the
   * clock (ms), whether the token read succeeds, the token endpoint's reply, whether the token
   * update succeeds, the data endpoint's reply (`None` when it is not `ok`), and the indices of
   * the playlist items whose upsert fails.
   */
  datatype DataEnv = DataEnv(
    user: Option<UserId>, now: int, readOk: bool, tokenReply: TokenReply, writeOk: bool,
    playlistsReply: Option<seq<Playlist>>, itemsReply: Option<seq<Item>>, failedUpserts: set<nat>)

  /** The JSON bodies of the successful answers. */
  datatype DataBody = PlaylistsBody(playlists: seq<Playlist>) | TracksBody(tracks: seq<Item>) | ArtistsBody(artists: seq<Item>)

  /** The answer, both tables afterwards, and the effects performed, in order. */
  datatype DataOutcome = DataOutcome(
    response: Response<DataBody>, tokens: map<UserId, TokenRecord>,
    playlists: map<(UserId, string), PlaylistRow>, effects: seq<Effect>)

  const Unauthorized := "Unauthorized"
  const NotConnected := "Spotify not connected"
  const RefreshFailed := "Failed to refresh Spotify token"
  const InvalidAction := "Invalid action"
  const DefaultTimeRange := "medium_term"
  const Limit := "50"

  const PlaylistsUrl := Url(ApiBase + "/v1/me/playlists", [("limit", Limit)])
  const RecentlyPlayedUrl := Url(ApiBase + "/v1/me/player/recently-played", [("limit", Limit)])

  /** `/v1/me/top/<kind>?time_range=<range>&limit=50`, the range defaulting to `medium_term`. */
  function TopUrl(kind: string, timeRange: Option<string>): (url: Url)
    ensures QueryValue(url.query, "time_range") == Some(timeRange.GetOr(DefaultTimeRange))
    ensures QueryValue(url.query, "limit") == Some(Limit)
  {
    var query := [("time_range", timeRange.GetOr(DefaultTimeRange)), ("limit", Limit)];
    QueryValueAt(query, "time_range", 0);
    QueryValueAt(query, "limit", 1);
    Url(ApiBase + "/v1/me/top/" + kind, query)
  }

  /** The token to use: the stored one while fresh, a refreshed one, or a failed refresh. */
  datatype Access = Usable(tokens: map<UserId, TokenRecord>, bearer: string, effects: seq<Effect>) | Unusable(effects: seq<Effect>)

  /**
   * A refresh is requested exactly when the stored token is expired, and the token is usable
   * unless that refresh is refused. Using it changes no row but the user's, and removes none.
   */
  function AccessFor(tokens: map<UserId, TokenRecord>, user: UserId, rec: TokenRecord, env: DataEnv): (a: Access)
    ensures a.Usable? <==> !Expired(rec, env.now) || env.tokenReply.Granted?
    ensures |a.effects| > 0 <==> Expired(rec, env.now)
    ensures a.Usable? ==>
      a.tokens.Keys == tokens.Keys && forall u :: u in tokens && u != user ==> a.tokens[u] == tokens[u]
  {
    if !Expired(rec, env.now) then Usable(tokens, rec.accessToken, [])
    else
      var request := TokenRequest(RefreshToken(rec.refreshToken));
      match env.tokenReply
      case Rejected(_) => Unusable([request])
      case Granted(accessToken, _, expiresIn) =>
        var expiresAt := ExpiryAt(env.now, expiresIn);
        Usable(UpdatedTokens(tokens, user, accessToken, expiresAt, env.writeOk), accessToken,
          [request, UpdateToken(user, accessToken, expiresAt)])
  }

  /** The upserts of the first `n` playlist items, one per item, in order. */
  function UpsertEffects(user: UserId, items: seq<Playlist>): (effects: seq<Effect>)
    ensures |effects| == |items|
    ensures forall i :: 0 <= i < |items| ==> effects[i] == UpsertPlaylist(RowOf(user, items[i]))
  {
    if |items| == 0 then [] else UpsertEffects(user, items[..|items| - 1]) + [UpsertPlaylist(RowOf(user, items[|items| - 1]))]
  }

  /**
   * The playlist table after the upserts of the first `n` items; failed upserts change nothing.
   * No row is removed, and the rows of other users are left as they were.
   */
  function StoredPlaylists(playlists: map<(UserId, string), PlaylistRow>, user: UserId, items: seq<Playlist>,
                           failed: set<nat>, n: nat): (stored: map<(UserId, string), PlaylistRow>)
    requires n <= |items|
    ensures playlists.Keys <= stored.Keys
    ensures forall k :: k in playlists && k.0 != user ==> stored[k] == playlists[k]
  {
    if n == 0 then playlists
    else
      var p := StoredPlaylists(playlists, user, items, failed, n - 1);
      if n - 1 in failed then p else p[(user, items[n - 1].id) := RowOf(user, items[n - 1])]
  }

  /** The cases of the `switch` on the body's `action`. */
  datatype Action = GetPlaylists | GetTopTracks | GetTopArtists | GetRecentlyPlayed | UnknownAction

  function ActionOf(action: Option<string>): (a: Action)
    ensures a == GetPlaylists <==> action == Some("get_playlists")
    ensures a == GetTopTracks <==> action == Some("get_top_tracks")
    ensures a == GetTopArtists <==> action == Some("get_top_artists")
    ensures a == GetRecentlyPlayed <==> action == Some("get_recently_played")
  {
    if action == Some("get_playlists") then GetPlaylists
    else if action == Some("get_top_tracks") then GetTopTracks
    else if action == Some("get_top_artists") then GetTopArtists
    else if action == Some("get_recently_played") then GetRecentlyPlayed
    else UnknownAction
  }

  /**
   * The action, with the token in hand: every known action calls Spotify and the unknown one
   * does nothing; only a successful `get_playlists` changes the playlist table, and never the
   * rows of other users.
   */
  function Dispatch(playlists: map<(UserId, string), PlaylistRow>, user: UserId, action: Action,
                    timeRange: Option<string>, bearer: string, env: DataEnv)
    : (r: (Response<DataBody>, map<(UserId, string), PlaylistRow>, seq<Effect>))
    ensures |r.2| == 0 <==> action == UnknownAction
    ensures r.1 != playlists ==> action == GetPlaylists && r.0.Json?
    ensures forall k :: k in playlists && k.0 != user ==> k in r.1 && r.1[k] == playlists[k]
  {
    match action
    case GetPlaylists =>
      (match env.playlistsReply
       case None => (Error("Failed to fetch playlists"), playlists, [ApiGet(PlaylistsUrl, bearer)])
       case Some(items) =>
         (Json(PlaylistsBody(items)), StoredPlaylists(playlists, user, items, env.failedUpserts, |items|),
          [ApiGet(PlaylistsUrl, bearer)] + UpsertEffects(user, items)))
    case GetTopTracks =>
      var call := [ApiGet(TopUrl("tracks", timeRange), bearer)];
      (match env.itemsReply
       case None => (Error("Failed to fetch top tracks"), playlists, call)
       case Some(items) => (Json(TracksBody(items)), playlists, call))
    case GetTopArtists =>
      var call := [ApiGet(TopUrl("artists", timeRange), bearer)];
      (match env.itemsReply
       case None => (Error("Failed to fetch top artists"), playlists, call)
       case Some(items) => (Json(ArtistsBody(items)), playlists, call))
    case GetRecentlyPlayed =>
      var call := [ApiGet(RecentlyPlayedUrl, bearer)];
      (match env.itemsReply
       case None => (Error("Failed to fetch recently played"), playlists, call)
       case Some(items) => (Json(TracksBody(items)), playlists, call))
    case UnknownAction => (Error(InvalidAction), playlists, [])
  }

  /**
   * The whole function: sign-in check, stored token, refresh, then the action. No credential row
   * is added or removed, and only the signed-in user's rows of either table can change; an
   * error answer leaves the playlist table as it was.
   */
  function HandleData(tokens: map<UserId, TokenRecord>, playlists: map<(UserId, string), PlaylistRow>,
                      req: DataRequest, env: DataEnv): (o: DataOutcome)
    ensures o.tokens.Keys == tokens.Keys
    ensures forall u :: u in tokens && Some(u) != env.user ==> o.tokens[u] == tokens[u]
    ensures forall k :: k in playlists && Some(k.0) != env.user ==> k in o.playlists && o.playlists[k] == playlists[k]
    ensures o.response.Error? ==> o.playlists == playlists
  {
    match req
    case Options => DataOutcome(Preflight, tokens, playlists, [])
    case Post(action, timeRange) =>
      if env.user.None? then DataOutcome(Error(Unauthorized), tokens, playlists, [])
      else
        var user := env.user.value;
        match SelectToken(tokens, user, env.readOk)
        case None => DataOutcome(Error(NotConnected), tokens, playlists, [])
        case Some(rec) =>
          match AccessFor(tokens, user, rec, env)
          case Unusable(effects) => DataOutcome(Error(RefreshFailed), tokens, playlists, effects)
          case Usable(tokens', bearer, effects) =>
            var (resp, playlists', calls) := Dispatch(playlists, user, ActionOf(action), timeRange, bearer, env);
            DataOutcome(resp, tokens', playlists', effects + calls)
  }

  // ---------------------------------------------------------------------------------------------
  // The handler, over the database.

  /** The `get_playlists` loop: one upsert per item, in order; their results are not checked. */
  method StorePlaylists(db: Database, user: UserId, items: seq<Playlist>, failed: set<nat>)
    returns (effects: seq<Effect>)
    modifies db
    ensures db.playlists == StoredPlaylists(old(db.playlists), user, items, failed, |items|)
    ensures effects == UpsertEffects(user, items)
    ensures db.tokens == old(db.tokens)
  {
    effects := [];
    for i := 0 to |items|
      invariant db.playlists == StoredPlaylists(old(db.playlists), user, items, failed, i)
      invariant effects == UpsertEffects(user, items[..i])
      invariant db.tokens == old(db.tokens)
    {
      var row := RowOf(user, items[i]);
      db.UpsertPlaylistRow(row, i !in failed);
      effects := effects + [UpsertPlaylist(row)];
      assert items[..i + 1][..i] == items[..i];
    }
    assert items[..|items|] == items;
  }

  method DispatchOn(db: Database, user: UserId, action: Action, timeRange: Option<string>, bearer: string, env: DataEnv)
    returns (resp: Response<DataBody>, effects: seq<Effect>)
    modifies db
    ensures (resp, db.playlists, effects) == Dispatch(old(db.playlists), user, action, timeRange, bearer, env)
    ensures db.tokens == old(db.tokens)
  {
    if action == GetPlaylists {
      effects := [ApiGet(PlaylistsUrl, bearer)];
      if env.playlistsReply.None? {
        return Error("Failed to fetch playlists"), effects;
      }
      var items := env.playlistsReply.value;
      var upserts := StorePlaylists(db, user, items, env.failedUpserts);
      return Json(PlaylistsBody(items)), effects + upserts;
    }
    if action == GetTopTracks {
      effects := [ApiGet(TopUrl("tracks", timeRange), bearer)];
      if env.itemsReply.None? {
        return Error("Failed to fetch top tracks"), effects;
      }
      return Json(TracksBody(env.itemsReply.value)), effects;
    }
    if action == GetTopArtists {
      effects := [ApiGet(TopUrl("artists", timeRange), bearer)];
      if env.itemsReply.None? {
        return Error("Failed to fetch top artists"), effects;
      }
      return Json(ArtistsBody(env.itemsReply.value)), effects;
    }
    if action == GetRecentlyPlayed {
      effects := [ApiGet(RecentlyPlayedUrl, bearer)];
      if env.itemsReply.None? {
        return Error("Failed to fetch recently played"), effects;
      }
      return Json(TracksBody(env.itemsReply.value)), effects;
    }
    return Error(InvalidAction), [];
  }

  /** The edge function's request handler; `accessToken` is reassigned when a refresh succeeds. */
  method HandleDataRequest(db: Database, req: DataRequest, env: DataEnv)
    returns (resp: Response<DataBody>, effects: seq<Effect>)
    modifies db
    ensures DataOutcome(resp, db.tokens, db.playlists, effects) == HandleData(old(db.tokens), old(db.playlists), req, env)
  {
    if req.Options? {
      return Preflight, [];
    }
    if env.user.None? {
      return Error(Unauthorized), [];
    }
    var user := env.user.value;
    var tokenData := SelectToken(db.tokens, user, env.readOk);
    if tokenData.None? {
      return Error(NotConnected), [];
    }
    var rec := tokenData.value;
    var accessToken := rec.accessToken;
    effects := [];
    if env.now >= rec.expiresAt {
      effects := effects + [TokenRequest(RefreshToken(rec.refreshToken))];
      if env.tokenReply.Granted? {
        var expiresAt := ExpiryAt(env.now, env.tokenReply.expiresIn);
        effects := effects + [UpdateToken(user, env.tokenReply.accessToken, expiresAt)];
        db.UpdateTokenRow(user, env.tokenReply.accessToken, expiresAt, env.writeOk);
        accessToken := env.tokenReply.accessToken;
      } else {
        return Error(RefreshFailed), effects;
      }
    }
    assert AccessFor(old(db.tokens), user, rec, env) == Usable(db.tokens, accessToken, effects);
    var calls;
    resp, calls := DispatchOn(db, user, ActionOf(req.action), req.timeRange, accessToken, env);
    effects := effects + calls;
  }

  // ---------------------------------------------------------------------------------------------
  // Properties.

  /**
   * The guards, before any action is looked at: no user gives "Unauthorized"; no stored record
   * (or a failed read) gives "Spotify not connected", whatever the action. Both answer 400 and
   * touch nothing.
   */
  lemma GuardRule(tokens: map<UserId, TokenRecord>, playlists: map<(UserId, string), PlaylistRow>,
                  action: Option<string>, timeRange: Option<string>, env: DataEnv)
    ensures env.user.None? ==>
      HandleData(tokens, playlists, Post(action, timeRange), env) == DataOutcome(Error(Unauthorized), tokens, playlists, [])
    ensures env.user.Some? && (!env.readOk || env.user.value !in tokens) ==>
      HandleData(tokens, playlists, Post(action, timeRange), env) == DataOutcome(Error(NotConnected), tokens, playlists, [])
    ensures Status(HandleData(tokens, playlists, Post(action, timeRange), env).response) == 400 <==>
      HandleData(tokens, playlists, Post(action, timeRange), env).response.Error?
  {
  }

  /** Every call to a data endpoint carries the given bearer token. */
  predicate AllCallsBear(effects: seq<Effect>, bearer: string)
  {
    forall i :: 0 <= i < |effects| && effects[i].ApiGet? ==> effects[i].bearer == bearer
  }

  lemma AllCallsBearConcat(x: seq<Effect>, y: seq<Effect>, bearer: string)
    requires AllCallsBear(x, bearer) && AllCallsBear(y, bearer)
    ensures AllCallsBear(x + y, bearer)
  {
    forall i | 0 <= i < |x + y| && (x + y)[i].ApiGet? ensures (x + y)[i].bearer == bearer {
      if i >= |x| {
        assert (x + y)[i] == y[i - |x|];
      }
    }
  }

  lemma DispatchBearer(playlists: map<(UserId, string), PlaylistRow>, user: UserId, action: Action,
                       timeRange: Option<string>, bearer: string, env: DataEnv)
    ensures var calls := Dispatch(playlists, user, action, timeRange, bearer, env).2;
      AllCallsBear(calls, bearer) && forall i :: 0 <= i < |calls| ==> !calls[i].TokenRequest? && !IsTokenWrite(calls[i])
  {
    if action == GetPlaylists && env.playlistsReply.Some? {
      var items := env.playlistsReply.value;
      var ups := UpsertEffects(user, items);
      var calls := [ApiGet(PlaylistsUrl, bearer)] + ups;
      forall i | 1 <= i < |calls|
        ensures calls[i] == ups[i - 1] && calls[i].UpsertPlaylist?
      {
      }
    }
  }

  /**
   * While the stored token is fresh (`now < expires_at`) it is used unchanged: no refresh call,
   * no token write, and the credential table is unchanged.
   */
  lemma FreshTokenRule(tokens: map<UserId, TokenRecord>, playlists: map<(UserId, string), PlaylistRow>,
                       action: Option<string>, timeRange: Option<string>, env: DataEnv)
    requires env.user.Some? && env.readOk && env.user.value in tokens
    requires env.now < tokens[env.user.value].expiresAt
    ensures var o := HandleData(tokens, playlists, Post(action, timeRange), env);
      o.tokens == tokens && AllCallsBear(o.effects, tokens[env.user.value].accessToken) &&
      forall i :: 0 <= i < |o.effects| ==> !o.effects[i].TokenRequest? && !IsTokenWrite(o.effects[i])
  {
    DispatchBearer(playlists, env.user.value, ActionOf(action), timeRange, tokens[env.user.value].accessToken, env);
  }

  /**
   * An expired token is refreshed first. If the refresh is granted, only the user's access token
   * and expiry change (to `now + expires_in * 1000`) and the new token is the one sent to Spotify.
   * If it is refused, the request fails with "Failed to refresh Spotify token" before any data
   * call, and neither table changes.
   */
  lemma ExpiredTokenRule(tokens: map<UserId, TokenRecord>, playlists: map<(UserId, string), PlaylistRow>,
                         action: Option<string>, timeRange: Option<string>, env: DataEnv)
    requires env.user.Some? && env.readOk && env.user.value in tokens
    requires env.now >= tokens[env.user.value].expiresAt
    ensures var o := HandleData(tokens, playlists, Post(action, timeRange), env);
      var user, rec := env.user.value, tokens[env.user.value];
      (env.tokenReply.Rejected? ==>
        o == DataOutcome(Error(RefreshFailed), tokens, playlists, [TokenRequest(RefreshToken(rec.refreshToken))])) &&
      (env.tokenReply.Granted? ==>
        var expiresAt := env.now + env.tokenReply.expiresIn * 1000;
        o.effects[..2] == [TokenRequest(RefreshToken(rec.refreshToken)), UpdateToken(user, env.tokenReply.accessToken, expiresAt)] &&
        AllCallsBear(o.effects, env.tokenReply.accessToken) &&
        o.tokens.Keys == tokens.Keys &&
        (forall u :: u in tokens && u != user ==> o.tokens[u] == tokens[u]) &&
        (env.writeOk ==> o.tokens[user] == TokenRecord(env.tokenReply.accessToken, rec.refreshToken, expiresAt, rec.spotifyUserId)) &&
        (!env.writeOk ==> o.tokens == tokens))
  {
    var user, rec := env.user.value, tokens[env.user.value];
    if env.tokenReply.Granted? {
      RefreshGranted(tokens, playlists, action, timeRange, env, user, rec);
    } else {
      assert AccessFor(tokens, user, rec, env) == Unusable([TokenRequest(RefreshToken(rec.refreshToken))]);
    }
  }

  /** The granted case of the rule above: the refresh's effects come first, then the action's. */
  lemma RefreshGranted(tokens: map<UserId, TokenRecord>, playlists: map<(UserId, string), PlaylistRow>,
                       action: Option<string>, timeRange: Option<string>, env: DataEnv, user: UserId, rec: TokenRecord)
    requires env.user == Some(user) && env.readOk && user in tokens && rec == tokens[user]
    requires env.now >= rec.expiresAt && env.tokenReply.Granted?
    ensures var o := HandleData(tokens, playlists, Post(action, timeRange), env);
      var accessToken, expiresAt := env.tokenReply.accessToken, ExpiryAt(env.now, env.tokenReply.expiresIn);
      o.effects[..2] == [TokenRequest(RefreshToken(rec.refreshToken)), UpdateToken(user, accessToken, expiresAt)] &&
      AllCallsBear(o.effects, accessToken) &&
      o.tokens == UpdatedTokens(tokens, user, accessToken, expiresAt, env.writeOk)
  {
    var accessToken := env.tokenReply.accessToken;
    var expiresAt := ExpiryAt(env.now, env.tokenReply.expiresIn);
    var updated := UpdatedTokens(tokens, user, accessToken, expiresAt, env.writeOk);
    var refresh := [TokenRequest(RefreshToken(rec.refreshToken)), UpdateToken(user, accessToken, expiresAt)];
    assert AccessFor(tokens, user, rec, env) == Usable(updated, accessToken, refresh);
    UsableAccess(tokens, playlists, action, timeRange, env);
    var calls := Dispatch(playlists, user, ActionOf(action), timeRange, accessToken, env).2;
    DispatchBearer(playlists, user, ActionOf(action), timeRange, accessToken, env);
    AllCallsBearConcat(refresh, calls, accessToken);
    assert (refresh + calls)[..2] == refresh;
  }

  /** The table rows written for a listing; rows of other users are never touched. */
  lemma {:induction false} StoredPlaylistsSpec(playlists: map<(UserId, string), PlaylistRow>, user: UserId,
                                               items: seq<Playlist>, failed: set<nat>, n: nat)
    requires n <= |items|
    ensures var p := StoredPlaylists(playlists, user, items, failed, n);
      (forall k: (UserId, string) :: k.0 != user ==> (k in p <==> k in playlists) && (k in playlists ==> p[k] == playlists[k])) &&
      (forall i :: 0 <= i < n && i !in failed ==> (user, items[i].id) in p) &&
      (forall k: (UserId, string) :: k in p && (k !in playlists || p[k] != playlists[k]) ==>
        exists i :: 0 <= i < n && i !in failed && k == (user, items[i].id) && p[k] == RowOf(user, items[i]))
  {
    if n > 0 {
      StoredPlaylistsSpec(playlists, user, items, failed, n - 1);
    }
  }

  /** With a usable token, the answer is the action's, after the refresh's effects. */
  lemma UsableAccess(tokens: map<UserId, TokenRecord>, playlists: map<(UserId, string), PlaylistRow>,
                     action: Option<string>, timeRange: Option<string>, env: DataEnv)
    requires env.user.Some? && env.readOk && env.user.value in tokens
    requires !Expired(tokens[env.user.value], env.now) || env.tokenReply.Granted?
    ensures var a := AccessFor(tokens, env.user.value, tokens[env.user.value], env);
      a.Usable? &&
      var d := Dispatch(playlists, env.user.value, ActionOf(action), timeRange, a.bearer, env);
      HandleData(tokens, playlists, Post(action, timeRange), env) == DataOutcome(d.0, a.tokens, d.1, a.effects + d.2)
  {
  }

  /** `get_playlists` whose listing fails: "Failed to fetch playlists", and no playlist is written. */
  lemma PlaylistsFailureRule(tokens: map<UserId, TokenRecord>, playlists: map<(UserId, string), PlaylistRow>,
                             timeRange: Option<string>, env: DataEnv)
    requires env.user.Some? && env.readOk && env.user.value in tokens
    requires !Expired(tokens[env.user.value], env.now) || env.tokenReply.Granted?
    requires env.playlistsReply.None?
    ensures var o := HandleData(tokens, playlists, Post(Some("get_playlists"), timeRange), env);
      o.response == Error("Failed to fetch playlists") && o.playlists == playlists &&
      forall i :: 0 <= i < |o.effects| ==> !o.effects[i].UpsertPlaylist?
  {
    UsableAccess(tokens, playlists, Some("get_playlists"), timeRange, env);
  }

  /**
   * `get_top_tracks`, `get_top_artists` and `get_recently_played`: one call to the action's
   * endpoint with the token in use. A listing that is not `ok` answers the action's own failure
   * message; otherwise its items are passed on unchanged. None of them writes a playlist.
   */
  lemma ItemsRule(tokens: map<UserId, TokenRecord>, playlists: map<(UserId, string), PlaylistRow>,
                  action: Option<string>, timeRange: Option<string>, env: DataEnv)
    requires action == Some("get_top_tracks") || action == Some("get_top_artists") || action == Some("get_recently_played")
    requires env.user.Some? && env.readOk && env.user.value in tokens
    requires !Expired(tokens[env.user.value], env.now) || env.tokenReply.Granted?
    ensures var o := HandleData(tokens, playlists, Post(action, timeRange), env);
      var a := AccessFor(tokens, env.user.value, tokens[env.user.value], env);
      var url := if action == Some("get_top_tracks") then TopUrl("tracks", timeRange)
                 else if action == Some("get_top_artists") then TopUrl("artists", timeRange)
                 else RecentlyPlayedUrl;
      && o.effects == a.effects + [ApiGet(url, a.bearer)]
      && o.playlists == playlists
      && o.tokens == a.tokens
      && (env.itemsReply.None? && action == Some("get_top_tracks") ==> o.response == Error("Failed to fetch top tracks"))
      && (env.itemsReply.None? && action == Some("get_top_artists") ==> o.response == Error("Failed to fetch top artists"))
      && (env.itemsReply.None? && action == Some("get_recently_played") ==>
            o.response == Error("Failed to fetch recently played"))
      && (env.itemsReply.Some? && action == Some("get_top_artists") ==>
            o.response == Json(ArtistsBody(env.itemsReply.value)))
      && (env.itemsReply.Some? && action != Some("get_top_artists") ==>
            o.response == Json(TracksBody(env.itemsReply.value)))
  {
    UsableAccess(tokens, playlists, action, timeRange, env);
  }

  /**
   * `get_playlists` with a listing of N items: after the refresh, if any, one call to the listing
   * endpoint with the token in use, then exactly N upserts, one per item in order; the table is
   * the result of those upserts, and the answer is the same N items.
   */
  lemma PlaylistsRule(tokens: map<UserId, TokenRecord>, playlists: map<(UserId, string), PlaylistRow>,
                      timeRange: Option<string>, env: DataEnv, items: seq<Playlist>)
    requires env.user.Some? && env.readOk && env.user.value in tokens
    requires !Expired(tokens[env.user.value], env.now) || env.tokenReply.Granted?
    requires env.playlistsReply == Some(items)
    ensures var o := HandleData(tokens, playlists, Post(Some("get_playlists"), timeRange), env);
      var user := env.user.value;
      var a := AccessFor(tokens, user, tokens[user], env);
      && o.response == Json(PlaylistsBody(items))
      && o.effects == a.effects + ([ApiGet(PlaylistsUrl, a.bearer)] + UpsertEffects(user, items))
      && o.playlists == StoredPlaylists(playlists, user, items, env.failedUpserts, |items|)
      && o.tokens == a.tokens
  {
    UsableAccess(tokens, playlists, Some("get_playlists"), timeRange, env);
  }

  /**
   * The endpoints: top tracks and top artists ask for the given `time_range`, `medium_term` when
   * there is none; every data endpoint asks for `limit=50`.
   */
  lemma EndpointRule(timeRange: Option<string>)
    ensures QueryValue(TopUrl("tracks", timeRange).query, "time_range") == Some(timeRange.GetOr("medium_term"))
    ensures QueryValue(TopUrl("artists", timeRange).query, "time_range") == Some(timeRange.GetOr("medium_term"))
    ensures timeRange.None? ==> QueryValue(TopUrl("tracks", timeRange).query, "time_range") == Some("medium_term")
    ensures QueryValue(TopUrl("tracks", timeRange).query, "limit") == Some("50")
    ensures QueryValue(TopUrl("artists", timeRange).query, "limit") == Some("50")
    ensures QueryValue(PlaylistsUrl.query, "limit") == Some("50")
    ensures QueryValue(RecentlyPlayedUrl.query, "limit") == Some("50")
  {
    QueryValueAt(TopUrl("tracks", timeRange).query, "time_range", 0);
    QueryValueAt(TopUrl("artists", timeRange).query, "time_range", 0);
    QueryValueAt(TopUrl("tracks", timeRange).query, "limit", 1);
    QueryValueAt(TopUrl("artists", timeRange).query, "limit", 1);
    QueryValueAt(PlaylistsUrl.query, "limit", 0);
    QueryValueAt(RecentlyPlayedUrl.query, "limit", 0);
  }

  /**
   * An unknown action is refused with "Invalid action" only after the token check: with a
   * record it still refreshes an expired token first (and fails as such if that fails); it never
   * calls a data endpoint or writes a playlist.
   */
  lemma InvalidActionRule(tokens: map<UserId, TokenRecord>, playlists: map<(UserId, string), PlaylistRow>,
                          action: Option<string>, timeRange: Option<string>, env: DataEnv)
    requires ActionOf(action) == UnknownAction
    requires env.user.Some? && env.readOk && env.user.value in tokens
    ensures var o := HandleData(tokens, playlists, Post(action, timeRange), env);
      var rec := tokens[env.user.value];
      o.playlists == playlists &&
      (forall i :: 0 <= i < |o.effects| ==> !o.effects[i].ApiGet?) &&
      (Expired(rec, env.now) && env.tokenReply.Rejected? ==> o.response == Error(RefreshFailed)) &&
      (!Expired(rec, env.now) || env.tokenReply.Granted? ==>
        o.response == Error(InvalidAction) && o.effects == AccessFor(tokens, env.user.value, rec, env).effects)
  {
  }
}
