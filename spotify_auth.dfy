/**
 * The `spotify-auth` edge function: the OAuth callback redirect (GET), and the POST actions
 * `get_auth_url`, `exchange_code`, `get_profile` and `disconnect` for a signed-in user.
 */
module SpotifyAuth {
  import opened Wrappers
  import opened Http
  import opened JsString
  import opened SpotifyStore

  const RedirectUri := "https://vqnnievbbegnztbiztlc.supabase.co/functions/v1/spotify-auth"
  const AuthorizeEndpoint := "https://accounts.spotify.com/authorize"

  /** The scopes the authorization URL asks for. */
  const Scopes: seq<string> := [
    "user-read-private", "user-read-email", "playlist-read-private",
    "playlist-read-collaborative", "user-top-read", "user-read-recently-played"]

  /**
   * The authorization URL for a client id and a fresh `state` value: Spotify's authorize
   * endpoint, asking for the code flow for that client and carrying that `state`.
   */
  function AuthorizeUrl(clientId: string, state: string): (url: Url)
    ensures url.base == AuthorizeEndpoint
    ensures QueryValue(url.query, "response_type") == Some("code")
    ensures QueryValue(url.query, "client_id") == Some(clientId)
    ensures QueryValue(url.query, "state") == Some(state)
  {
    AuthorizeQueryLookup(clientId, Join(Scopes, ' '), RedirectUri, state);
    Url(AuthorizeEndpoint, AuthorizeQuery(clientId, Join(Scopes, ' '), RedirectUri, state))
  }

  /** The authorization URL's parameters, in order. */
  function AuthorizeQuery(clientId: string, scope: string, redirectUri: string, state: string): seq<(string, string)>
  {
    [("response_type", "code"), ("client_id", clientId), ("scope", scope), ("redirect_uri", redirectUri), ("state", state)]
  }

  /** A query value that is present and non-empty, so truthy. */
  predicate Present(v: Option<string>)
  {
    v.Some? && v.value != []
  }

  /**
   * Where the OAuth callback sends the browser: the `/auth` path on the origin of the callback
   * request itself (the function's own host, not the front-end site), with at most two of the
   * parameters Spotify sent, each with the value the callback received for it.
   */
  function CallbackRedirect(origin: string, query: seq<(string, string)>): (url: Url)
    ensures url.base == origin + "/auth"
    ensures |url.query| <= 2
    ensures forall i :: 0 <= i < |url.query| ==> QueryValue(query, url.query[i].0) == Some(url.query[i].1)
  {
    var code, state, error := QueryValue(query, "code"), QueryValue(query, "state"), QueryValue(query, "error");
    if Present(error) then Url(origin + "/auth", [("error", error.value)])
    else if Present(code) && Present(state) then Url(origin + "/auth", [("code", code.value), ("state", state.value)])
    else Url(origin + "/auth", [])
  }

  /**
   * A request: the CORS pre-flight; the callback GET with the function URL's origin and query;
   * or a POST whose JSON body holds `action` and, for `exchange_code`, `code` and `state`.
   */
  datatype AuthRequest =
    | Options
    | Get(origin: string, query: seq<(string, string)>)
    | Post(action: Option<string>, code: Option<string>, state: Option<string>)

  /**
   * What the request meets outside the function: the user its bearer token resolves to, the
   * clock (ms), the configured client id, the random UUID, the token endpoint's and `/v1/me`'s
   * replies, and whether the table read and the table write succeed.
   */
  datatype AuthEnv = AuthEnv(
    user: Option<UserId>, now: int, clientId: string, stateUuid: string,
    tokenReply: TokenReply, profileReply: ProfileReply, readOk: bool, writeOk: bool)

  /** The JSON bodies of the successful answers. */
  datatype AuthBody =
    | AuthUrl(authUrl: Url, state: string)
    | Exchanged(profile: Profile)
    | Connected(profile: Profile)
    | NotConnected
    | Disconnected

  /** The answer, the credential table afterwards, and the effects performed, in order. */
  datatype AuthOutcome = AuthOutcome(response: Response<AuthBody>, tokens: map<UserId, TokenRecord>, effects: seq<Effect>)

  const Unauthorized := "Unauthorized"
  const ExchangeFailedPrefix := "Spotify token exchange failed: "
  const StoreFailed := "Failed to store Spotify tokens"
  const DisconnectFailed := "Failed to disconnect Spotify"
  const InvalidAction := "Invalid action"

  /**
   * `exchange_code`: the code is always sent to the token endpoint first. The answer is a success
   * exactly when the exchange is granted and the row is stored; the stored row then holds the
   * Spotify id of the profile returned. An error changes nothing, and no other row ever changes.
   */
  function ExchangeCode(tokens: map<UserId, TokenRecord>, user: UserId, code: Option<string>, env: AuthEnv): (o: AuthOutcome)
    ensures |o.effects| > 0 && o.effects[0] == TokenRequest(AuthorizationCode(code, RedirectUri))
    ensures o.response.Json? <==> env.tokenReply.Granted? && env.writeOk
    ensures o.response.Json? ==>
      o.response.body.Exchanged? && user in o.tokens && o.tokens[user].spotifyUserId == o.response.body.profile.id
    ensures o.response.Error? ==> o.tokens == tokens
    ensures forall u :: u != user ==> (u in o.tokens <==> u in tokens) && (u in tokens ==> o.tokens[u] == tokens[u])
  {
    var request := TokenRequest(AuthorizationCode(code, RedirectUri));
    match env.tokenReply
    case Rejected(error) => AuthOutcome(Error(ExchangeFailedPrefix + error), tokens, [request])
    case Granted(accessToken, refreshToken, expiresIn) =>
      var profile := env.profileReply.profile;
      var rec := TokenRecord(accessToken, refreshToken, ExpiryAt(env.now, expiresIn), profile.id);
      var effects := [request, ApiGet(MeUrl, accessToken), UpsertToken(user, rec)];
      if env.writeOk then AuthOutcome(Json(Exchanged(profile)), tokens[user := rec], effects)
      else AuthOutcome(Error(StoreFailed), tokens, effects)
  }

  /**
   * `get_profile`: never an error answer; it adds and removes no row, and changes no row but
   * the user's.
   */
  function GetProfile(tokens: map<UserId, TokenRecord>, user: UserId, env: AuthEnv): (o: AuthOutcome)
    ensures o.response.Json?
    ensures o.tokens.Keys == tokens.Keys
    ensures forall u :: u in tokens && u != user ==> o.tokens[u] == tokens[u]
  {
    match SelectToken(tokens, user, env.readOk)
    case None => AuthOutcome(Json(NotConnected), tokens, [])
    case Some(rec) =>
      var (tokens', bearer, refreshEffects) :=
        if !Expired(rec, env.now) then (tokens, rec.accessToken, [])
        else
          var request := TokenRequest(RefreshToken(rec.refreshToken));
          match env.tokenReply
          case Rejected(_) => (tokens, rec.accessToken, [request])
          case Granted(accessToken, _, expiresIn) =>
            var expiresAt := ExpiryAt(env.now, expiresIn);
            (UpdatedTokens(tokens, user, accessToken, expiresAt, env.writeOk), accessToken,
             [request, UpdateToken(user, accessToken, expiresAt)]);
      var effects := refreshEffects + [ApiGet(MeUrl, bearer)];
      if env.profileReply.ok then AuthOutcome(Json(Connected(env.profileReply.profile)), tokens', effects)
      else AuthOutcome(Json(NotConnected), tokens', effects)
  }

  /** `disconnect`: on success the user has no row and the others are kept; on failure nothing changes. */
  function Disconnect(tokens: map<UserId, TokenRecord>, user: UserId, env: AuthEnv): (o: AuthOutcome)
    ensures o.response.Json? ==> user !in o.tokens && o.tokens == tokens - {user}
    ensures o.response.Error? ==> o.tokens == tokens
    ensures o.response.Json? || o.response.Error?
  {
    if env.writeOk then AuthOutcome(Json(Disconnected), tokens - {user}, [DeleteToken(user)])
    else AuthOutcome(Error(DisconnectFailed), tokens, [DeleteToken(user)])
  }

  /**
   * The whole function: pre-flight, callback, the sign-in check, then the action. Only a POST by
   * a signed-in user does anything, and it changes, adds or removes no row but that user's.
   */
  function HandleAuth(tokens: map<UserId, TokenRecord>, req: AuthRequest, env: AuthEnv): (o: AuthOutcome)
    ensures !req.Post? || env.user.None? ==> o.tokens == tokens && o.effects == []
    ensures forall u :: u in tokens && Some(u) != env.user ==> u in o.tokens && o.tokens[u] == tokens[u]
    ensures forall u :: u in o.tokens && Some(u) != env.user ==> u in tokens
  {
    match req
    case Options => AuthOutcome(Preflight, tokens, [])
    case Get(origin, query) => AuthOutcome(Redirect(CallbackRedirect(origin, query)), tokens, [])
    case Post(action, code, _) =>
      if env.user.None? then AuthOutcome(Error(Unauthorized), tokens, [])
      else if action == Some("get_auth_url") then
        AuthOutcome(Json(AuthUrl(AuthorizeUrl(env.clientId, env.stateUuid), env.stateUuid)), tokens, [])
      else if action == Some("exchange_code") then ExchangeCode(tokens, env.user.value, code, env)
      else if action == Some("get_profile") then GetProfile(tokens, env.user.value, env)
      else if action == Some("disconnect") then Disconnect(tokens, env.user.value, env)
      else AuthOutcome(Error(InvalidAction), tokens, [])
  }

  // ---------------------------------------------------------------------------------------------
  // The handler, over the database.

  method ExchangeCodeOn(db: Database, user: UserId, code: Option<string>, env: AuthEnv)
    returns (resp: Response<AuthBody>, effects: seq<Effect>)
    modifies db
    ensures AuthOutcome(resp, db.tokens, effects) == ExchangeCode(old(db.tokens), user, code, env)
    ensures db.playlists == old(db.playlists)
  {
    effects := [TokenRequest(AuthorizationCode(code, RedirectUri))];
    if env.tokenReply.Rejected? {
      return Error(ExchangeFailedPrefix + env.tokenReply.error), effects;
    }
    var tokenData := env.tokenReply;
    effects := effects + [ApiGet(MeUrl, tokenData.accessToken)];
    var spotifyProfile := env.profileReply.profile;
    var rec := TokenRecord(tokenData.accessToken, tokenData.refreshToken,
      ExpiryAt(env.now, tokenData.expiresIn), spotifyProfile.id);
    effects := effects + [UpsertToken(user, rec)];
    db.UpsertTokenRow(user, rec, env.writeOk);
    if !env.writeOk {
      return Error(StoreFailed), effects;
    }
    resp := Json(Exchanged(spotifyProfile));
  }

  method GetProfileOn(db: Database, user: UserId, env: AuthEnv)
    returns (resp: Response<AuthBody>, effects: seq<Effect>)
    modifies db
    ensures AuthOutcome(resp, db.tokens, effects) == GetProfile(old(db.tokens), user, env)
    ensures db.playlists == old(db.playlists)
  {
    var tokenData := SelectToken(db.tokens, user, env.readOk);
    if tokenData.None? {
      return Json(NotConnected), [];
    }
    var accessToken := tokenData.value.accessToken;
    effects := [];
    if env.now >= tokenData.value.expiresAt {
      effects := effects + [TokenRequest(RefreshToken(tokenData.value.refreshToken))];
      if env.tokenReply.Granted? {
        var expiresAt := ExpiryAt(env.now, env.tokenReply.expiresIn);
        effects := effects + [UpdateToken(user, env.tokenReply.accessToken, expiresAt)];
        db.UpdateTokenRow(user, env.tokenReply.accessToken, expiresAt, env.writeOk);
        accessToken := env.tokenReply.accessToken;
      }
    }
    effects := effects + [ApiGet(MeUrl, accessToken)];
    if !env.profileReply.ok {
      return Json(NotConnected), effects;
    }
    resp := Json(Connected(env.profileReply.profile));
  }

  method DisconnectOn(db: Database, user: UserId, env: AuthEnv)
    returns (resp: Response<AuthBody>, effects: seq<Effect>)
    modifies db
    ensures AuthOutcome(resp, db.tokens, effects) == Disconnect(old(db.tokens), user, env)
    ensures db.playlists == old(db.playlists)
  {
    db.DeleteTokenRow(user, env.writeOk);
    effects := [DeleteToken(user)];
    if !env.writeOk {
      return Error(DisconnectFailed), effects;
    }
    resp := Json(Disconnected);
  }

  /** The edge function's request handler. */
  method HandleAuthRequest(db: Database, req: AuthRequest, env: AuthEnv)
    returns (resp: Response<AuthBody>, effects: seq<Effect>)
    modifies db
    ensures AuthOutcome(resp, db.tokens, effects) == HandleAuth(old(db.tokens), req, env)
    ensures db.playlists == old(db.playlists)
  {
    match req {
      case Options =>
        return Preflight, [];
      case Get(origin, query) =>
        return Redirect(CallbackRedirect(origin, query)), [];
      case Post(action, code, _) =>
        if env.user.None? {
          return Error(Unauthorized), [];
        }
        var user := env.user.value;
        if action == Some("get_auth_url") {
          var state := env.stateUuid;
          return Json(AuthUrl(AuthorizeUrl(env.clientId, state), state)), [];
        }
        if action == Some("exchange_code") {
          resp, effects := ExchangeCodeOn(db, user, code, env);
          return;
        }
        if action == Some("get_profile") {
          resp, effects := GetProfileOn(db, user, env);
          return;
        }
        if action == Some("disconnect") {
          resp, effects := DisconnectOn(db, user, env);
          return;
        }
        return Error(InvalidAction), [];
    }
  }

  // ---------------------------------------------------------------------------------------------
  // Properties.

  /**
   * The callback: an `error` parameter wins, even beside `code` and `state`; otherwise `code`
   * and `state` together are passed on; otherwise the plain `/auth` page. It answers 302 and
   * touches neither the table nor Spotify.
   */
  lemma CallbackRule(tokens: map<UserId, TokenRecord>, origin: string, query: seq<(string, string)>, env: AuthEnv)
    ensures var o := HandleAuth(tokens, Get(origin, query), env);
      Status(o.response) == 302 && o.tokens == tokens && o.effects == [] &&
      o.response.location.base == origin + "/auth"
    ensures var error := QueryValue(query, "error");
      Present(error) ==> CallbackRedirect(origin, query).query == [("error", error.value)]
    ensures var code, state := QueryValue(query, "code"), QueryValue(query, "state");
      !Present(QueryValue(query, "error")) && Present(code) && Present(state) ==>
        CallbackRedirect(origin, query).query == [("code", code.value), ("state", state.value)]
    ensures (!Present(QueryValue(query, "error")) &&
             !(Present(QueryValue(query, "code")) && Present(QueryValue(query, "state")))) ==>
        CallbackRedirect(origin, query).query == []
  {
  }

  /** A POST whose bearer token resolves to no user is refused with 400, touching nothing. */
  lemma UnauthorizedRule(tokens: map<UserId, TokenRecord>, action: Option<string>, code: Option<string>, state: Option<string>, env: AuthEnv)
    requires env.user.None?
    ensures HandleAuth(tokens, Post(action, code, state), env) == AuthOutcome(Error(Unauthorized), tokens, [])
    ensures Status(HandleAuth(tokens, Post(action, code, state), env).response) == 400
  {
  }

  lemma ScopesHaveNoSpace()
    ensures forall i :: 0 <= i < |Scopes| ==> ' ' !in Scopes[i]
  {
    forall i | 0 <= i < |Scopes| ensures ' ' !in Scopes[i] {
      assert Scopes[i] in Scopes;
    }
  }

  /**
   * `get_auth_url`: the URL asks for the code flow with the configured client id, the fixed
   * redirect URI and exactly the six scopes separated by spaces, and carries the same `state`
   * value the answer returns. Nothing is stored and Spotify is not called.
   */
  lemma AuthUrlRule(tokens: map<UserId, TokenRecord>, code: Option<string>, state: Option<string>, env: AuthEnv)
    requires env.user.Some?
    ensures var o := HandleAuth(tokens, Post(Some("get_auth_url"), code, state), env);
      o.tokens == tokens && o.effects == [] && o.response.Json? && o.response.body.AuthUrl? &&
      var url := o.response.body.authUrl;
      o.response.body.state == env.stateUuid &&
      url.base == AuthorizeEndpoint &&
      QueryValue(url.query, "state") == Some(env.stateUuid) &&
      QueryValue(url.query, "response_type") == Some("code") &&
      QueryValue(url.query, "client_id") == Some(env.clientId) &&
      QueryValue(url.query, "redirect_uri") == Some(RedirectUri) &&
      QueryValue(url.query, "scope").Some? &&
      Split(QueryValue(url.query, "scope").value, ' ') == Scopes
  {
    var url := AuthorizeUrl(env.clientId, env.stateUuid);
    assert HandleAuth(tokens, Post(Some("get_auth_url"), code, state), env) ==
      AuthOutcome(Json(AuthUrl(url, env.stateUuid)), tokens, []);
    ScopeStringLists();
    AuthorizeUrlQuery(env.clientId, env.stateUuid);
  }

  /** The scope parameter splits on spaces back into the six scopes. */
  lemma ScopeStringLists()
    ensures Split(Join(Scopes, ' '), ' ') == Scopes
  {
    ScopesHaveNoSpace();
    SplitJoin(Scopes, ' ');
  }

  /** The parameters of the authorization URL, looked up by name. */
  lemma AuthorizeUrlQuery(clientId: string, state: string)
    ensures var q := AuthorizeUrl(clientId, state).query;
      QueryValue(q, "response_type") == Some("code") &&
      QueryValue(q, "client_id") == Some(clientId) &&
      QueryValue(q, "scope") == Some(Join(Scopes, ' ')) &&
      QueryValue(q, "redirect_uri") == Some(RedirectUri) &&
      QueryValue(q, "state") == Some(state)
  {
    AuthorizeQueryLookup(clientId, Join(Scopes, ' '), RedirectUri, state);
  }

  lemma AuthorizeQueryLookup(clientId: string, scope: string, redirectUri: string, state: string)
    ensures var q := AuthorizeQuery(clientId, scope, redirectUri, state);
      QueryValue(q, "response_type") == Some("code") &&
      QueryValue(q, "client_id") == Some(clientId) &&
      QueryValue(q, "scope") == Some(scope) &&
      QueryValue(q, "redirect_uri") == Some(redirectUri) &&
      QueryValue(q, "state") == Some(state)
  {
    var q := AuthorizeQuery(clientId, scope, redirectUri, state);
    assert |q[0].0| == 13 && |q[1].0| == 9 && |q[2].0| == 5 && |q[3].0| == 12 && |q[4].0| == 5;
    assert QueryValue(q, "response_type") == Some("code") by {
      QueryValueAt(q, "response_type", 0);
    }
    assert QueryValue(q, "client_id") == Some(clientId) by {
      QueryValueAt(q, "client_id", 1);
    }
    assert QueryValue(q, "scope") == Some(scope) by {
      QueryValueAt(q, "scope", 2);
    }
    assert QueryValue(q, "redirect_uri") == Some(redirectUri) by {
      QueryValueAt(q, "redirect_uri", 3);
    }
    assert QueryValue(q, "state") == Some(state) by {
      assert "scope"[1] != "state"[1];
      QueryValueAt(q, "state", 4);
    }
  }

  /**
   * `exchange_code`: a refused exchange fails with Spotify's error and changes nothing; a granted
   * one overwrites the user's record with the new tokens, the expiry `now + expires_in * 1000`
   * and the profile's id, leaving every other user's record alone, unless the write fails.
   */
  lemma ExchangeRule(tokens: map<UserId, TokenRecord>, user: UserId, code: Option<string>, state: Option<string>, env: AuthEnv)
    requires env.user == Some(user)
    ensures var o := HandleAuth(tokens, Post(Some("exchange_code"), code, state), env);
      match env.tokenReply
      case Rejected(error) =>
        o.response == Error(ExchangeFailedPrefix + error) && o.tokens == tokens &&
        o.effects == [TokenRequest(AuthorizationCode(code, RedirectUri))]
      case Granted(accessToken, refreshToken, expiresIn) =>
        (env.writeOk ==>
          o.response == Json(Exchanged(env.profileReply.profile)) &&
          o.tokens.Keys == tokens.Keys + {user} &&
          o.tokens[user] == TokenRecord(accessToken, refreshToken, env.now + expiresIn * 1000, env.profileReply.profile.id) &&
          (forall u :: u in tokens && u != user ==> o.tokens[u] == tokens[u])) &&
        (!env.writeOk ==> o.response == Error(StoreFailed) && o.tokens == tokens)
  {
  }

  /** `get_profile` without a stored record: not connected, no call to Spotify, nothing written. */
  lemma ProfileWithoutRecord(tokens: map<UserId, TokenRecord>, user: UserId, code: Option<string>, state: Option<string>, env: AuthEnv)
    requires env.user == Some(user) && (!env.readOk || user !in tokens)
    ensures HandleAuth(tokens, Post(Some("get_profile"), code, state), env) == AuthOutcome(Json(NotConnected), tokens, [])
  {
  }

  /**
   * `get_profile` with a stored record: refresh only when `now >= expires_at`. A fresh token is
   * used as stored. A granted refresh changes only the access token and the expiry (the refresh
   * token is kept) and the new token is used; a refused one leaves the record alone and the old
   * token is used. The answer is "connected" exactly when the profile fetch succeeds, and the
   * record is never deleted.
   */
  lemma ProfileRefreshRule(tokens: map<UserId, TokenRecord>, user: UserId, code: Option<string>, state: Option<string>, env: AuthEnv)
    requires env.user == Some(user) && env.readOk && user in tokens
    ensures var o := HandleAuth(tokens, Post(Some("get_profile"), code, state), env);
      var rec := tokens[user];
      o.tokens.Keys == tokens.Keys &&
      (o.response == Json(Connected(env.profileReply.profile)) <==> env.profileReply.ok) &&
      (!env.profileReply.ok ==> o.response == Json(NotConnected)) &&
      (env.now < rec.expiresAt ==> o.tokens == tokens && o.effects == [ApiGet(MeUrl, rec.accessToken)]) &&
      (env.now >= rec.expiresAt && env.tokenReply.Rejected? ==>
        o.tokens == tokens &&
        o.effects == [TokenRequest(RefreshToken(rec.refreshToken)), ApiGet(MeUrl, rec.accessToken)]) &&
      (env.now >= rec.expiresAt && env.tokenReply.Granted? ==>
        var expiresAt := env.now + env.tokenReply.expiresIn * 1000;
        o.effects == [TokenRequest(RefreshToken(rec.refreshToken)),
                      UpdateToken(user, env.tokenReply.accessToken, expiresAt),
                      ApiGet(MeUrl, env.tokenReply.accessToken)] &&
        (env.writeOk ==>
          o.tokens[user] == TokenRecord(env.tokenReply.accessToken, rec.refreshToken, expiresAt, rec.spotifyUserId)) &&
        (!env.writeOk ==> o.tokens == tokens) &&
        forall u :: u in tokens && u != user ==> o.tokens[u] == tokens[u])
  {
    var o := HandleAuth(tokens, Post(Some("get_profile"), code, state), env);
    var rec := tokens[user];
    assert o == GetProfile(tokens, user, env);
    assert SelectToken(tokens, user, env.readOk) == Some(rec);
    var answer := if env.profileReply.ok then Json(Connected(env.profileReply.profile)) else Json(NotConnected);
    if env.now < rec.expiresAt {
      assert o == AuthOutcome(answer, tokens, [ApiGet(MeUrl, rec.accessToken)]);
    } else if env.tokenReply.Rejected? {
      assert o == AuthOutcome(answer, tokens, [TokenRequest(RefreshToken(rec.refreshToken)), ApiGet(MeUrl, rec.accessToken)]);
    } else {
      ProfileRefreshGranted(tokens, user, env, rec);
    }
  }

  /** The granted case of the rule above: the row is updated in place and the new token is used. */
  lemma ProfileRefreshGranted(tokens: map<UserId, TokenRecord>, user: UserId, env: AuthEnv, rec: TokenRecord)
    requires env.readOk && user in tokens && rec == tokens[user]
    requires env.now >= rec.expiresAt && env.tokenReply.Granted?
    ensures var o := GetProfile(tokens, user, env);
      var accessToken, expiresAt := env.tokenReply.accessToken, ExpiryAt(env.now, env.tokenReply.expiresIn);
      o.tokens == UpdatedTokens(tokens, user, accessToken, expiresAt, env.writeOk) &&
      o.effects == [TokenRequest(RefreshToken(rec.refreshToken)), UpdateToken(user, accessToken, expiresAt),
                    ApiGet(MeUrl, accessToken)] &&
      o.response == if env.profileReply.ok then Json(Connected(env.profileReply.profile)) else Json(NotConnected)
  {
    assert SelectToken(tokens, user, env.readOk) == Some(rec);
  }

  /** `disconnect` removes exactly the user's record, or fails and changes nothing. */
  lemma DisconnectRule(tokens: map<UserId, TokenRecord>, user: UserId, code: Option<string>, state: Option<string>, env: AuthEnv)
    requires env.user == Some(user)
    ensures var o := HandleAuth(tokens, Post(Some("disconnect"), code, state), env);
      (env.writeOk ==>
        o.response == Json(Disconnected) && user !in o.tokens &&
        forall u :: u != user ==> (u in o.tokens <==> u in tokens) && (u in tokens ==> o.tokens[u] == tokens[u])) &&
      (!env.writeOk ==> o.response == Error(DisconnectFailed) && o.tokens == tokens)
  {
  }

  /** Disconnecting twice leaves the table as disconnecting once, and both answer success. */
  lemma DisconnectIdempotent(tokens: map<UserId, TokenRecord>, user: UserId, code: Option<string>, state: Option<string>, env: AuthEnv)
    requires env.user == Some(user) && env.writeOk
    ensures var once := HandleAuth(tokens, Post(Some("disconnect"), code, state), env);
      var twice := HandleAuth(once.tokens, Post(Some("disconnect"), code, state), env);
      twice.tokens == once.tokens && twice.response == once.response
  {
    var once := HandleAuth(tokens, Post(Some("disconnect"), code, state), env);
    assert once.tokens - {user} == once.tokens;
  }

  /** Any other action (or none) is refused with "Invalid action", touching nothing. */
  lemma InvalidActionRule(tokens: map<UserId, TokenRecord>, action: Option<string>, code: Option<string>, state: Option<string>, env: AuthEnv)
    requires env.user.Some?
    requires action !in {Some("get_auth_url"), Some("exchange_code"), Some("get_profile"), Some("disconnect")}
    ensures HandleAuth(tokens, Post(action, code, state), env) == AuthOutcome(Error(InvalidAction), tokens, [])
  {
  }

  /**
   * A stored exchange followed, before the new token expires, by `get_profile` whose profile
   * fetch succeeds: the user is connected, and the new access token is used without a refresh.
   */
  lemma ExchangeThenProfile(tokens: map<UserId, TokenRecord>, user: UserId, code: Option<string>, state: Option<string>,
                            env: AuthEnv, later: AuthEnv)
    requires env.user == Some(user) && env.tokenReply.Granted? && env.writeOk
    requires later.user == Some(user) && later.readOk && later.profileReply.ok
    requires later.now < env.now + env.tokenReply.expiresIn * 1000
    ensures var exchanged := HandleAuth(tokens, Post(Some("exchange_code"), code, state), env);
      var profile := HandleAuth(exchanged.tokens, Post(Some("get_profile"), None, None), later);
      profile.response == Json(Connected(later.profileReply.profile)) &&
      profile.effects == [ApiGet(MeUrl, env.tokenReply.accessToken)] &&
      profile.tokens == exchanged.tokens
  {
  }
}
