/**
 * The OAuth backend: the cookie-session gate in front of every route, the
 * `AuthenticatedUser` extractor, and the non-network flow of the OAuth
 * callback. The provider's token and user-info calls and JSON (de)serialisation
 * are parameters.
 */
module Backend {
  import opened Wrappers
  import opened Numbers
  import opened Http

  /** A signed-in user; `expiresAt` is in seconds since the Unix epoch. */
  datatype User = User(id: string, username: string, accessToken: string,
                       refreshToken: Option<string>, expiresAt: U64)

  /** The only paths that skip the session check. */
  const PUBLIC_PATHS: set<string> := {"/api/login", "/api/callback", "/api/auth-url"}

  /** The 401 JSON body of the gate. */
  datatype ErrorBody = ErrorBody(error: string, message: string)

  const UNAUTHORIZED_BODY := ErrorBody("Unauthorized", "You must be logged in to access this resource")

  /** What the session gate decides for one request. */
  datatype SessionDecision =
    | Bypass               // a public path, forwarded untouched
    | Admit(user: User)    // the session's user, attached and forwarded
    | Refuse               // answered 401 with `UNAUTHORIZED_BODY`

  /** The request clock as the gate reads it: `timestamp() as u64`, wrapping negatives. */
  function Clock(now: I64): (c: U64)
    ensures 0 <= now ==> c == now
    ensures now < 0 ==> c == now + TWO_64
  {
    AsU64(now)
  }

  /**
   * The gate's decision: public paths bypass; otherwise the session's "user"
   * value must parse into a `User` whose expiry is strictly after the clock.
   */
  function SessionDecide(path: string, sessionUser: Option<string>, parse: string -> Option<User>, now: I64)
    : (d: SessionDecision)
    ensures d.Bypass? <==> path in PUBLIC_PATHS
    ensures d.Admit? <==> path !in PUBLIC_PATHS && sessionUser.Some? && parse(sessionUser.value).Some?
                          && parse(sessionUser.value).value.expiresAt > Clock(now)
    ensures d.Admit? ==> d.user == parse(sessionUser.value).value
  {
    if path in PUBLIC_PATHS then Bypass
    else match sessionUser
      case None => Refuse
      case Some(json) =>
        match parse(json)
        case Some(user) => if user.expiresAt > Clock(now) then Admit(user) else Refuse
        case None => Refuse
  }

  /** The cookie session: string values by key; `healthy` is false when inserting fails. */
  class Session {
    var entries: map<string, string>
    var healthy: bool

    constructor (entries: map<string, string>, healthy: bool)
      ensures this.entries == entries && this.healthy == healthy
    {
      this.entries := entries;
      this.healthy := healthy;
    }

    /** `session.get::<String>(key)`. */
    function Get(key: string): (v: Option<string>)
      reads this
      ensures v.Some? <==> key in entries
      ensures v.Some? ==> v.value == entries[key]
    {
      if key in entries then Some(entries[key]) else None
    }

    /** `session.insert(key, value)`. */
    method Insert(key: string, value: string) returns (ok: bool)
      modifies this`entries
      ensures ok == healthy
      ensures entries == if ok then old(entries)[key := value] else old(entries)
    {
      if !healthy {
        return false;
      }
      entries := entries[key := value];
      ok := true;
    }
  }

  /** Where the backend sends a request after its gate. */
  datatype GateOutcome = Forwarded | Denied(status: nat, body: ErrorBody)

  /**
   * `auth_middleware`, wrapped around every route of the backend, static files
   * included: on `Admit` the user is put into the request before forwarding.
   */
  method SessionGate(req: Request<User>, session: Session, parse: string -> Option<User>, now: I64)
    returns (r: GateOutcome)
    modifies req
    ensures match SessionDecide(req.path, session.Get("user"), parse, now)
      case Bypass => r == Forwarded && req.extension == old(req.extension)
      case Admit(user) => r == Forwarded && req.extension == Some(user)
      case Refuse => r == Denied(UNAUTHORIZED, UNAUTHORIZED_BODY) && req.extension == old(req.extension)
  {
    var d := SessionDecide(req.path, session.Get("user"), parse, now);
    match d
    case Bypass =>
      r := Forwarded;
    case Admit(user) =>
      req.extension := Some(user);
      r := Forwarded;
    case Refuse =>
      r := Denied(UNAUTHORIZED, UNAUTHORIZED_BODY);
  }

  /** `AuthenticatedUser::from_request`: the user the gate attached, or Unauthorized. */
  function AuthenticatedUser(req: Request<User>): (r: Result<User, Unauthorized>)
    reads req
    ensures r.Err? <==> req.extension.None?
    ensures r.Ok? ==> r.value == req.extension.value
    ensures r.Err? ==> r.error == Unauthorized("Unauthorized")
  {
    match req.extension
    case Some(user) => Ok(user)
    case None => Err(Unauthorized("Unauthorized"))
  }

  /** A user whose expiry equals the clock is already refused: the check is strict. */
  lemma ExpiryInstantRefused(path: string, json: string, parse: string -> Option<User>, now: I64)
    requires path !in PUBLIC_PATHS && parse(json).Some? && parse(json).value.expiresAt == Clock(now)
    ensures SessionDecide(path, Some(json), parse, now) == Refuse
  {
  }

  /**
   * The gate wraps the static frontend too: a visitor without a session is
   * refused even the entry page and the login route.
   */
  lemma FrontendPagesNeedSession(parse: string -> Option<User>, now: I64)
    ensures SessionDecide("/", None, parse, now) == Refuse
    ensures SessionDecide("/login", None, parse, now) == Refuse
  {
    assert "/" !in PUBLIC_PATHS by {
      assert |"/"| != |"/api/login"| && |"/"| != |"/api/callback"| && |"/"| != |"/api/auth-url"|;
    }
    assert "/login" !in PUBLIC_PATHS by {
      assert "/login"[1] != "/api/login"[1];
      assert |"/login"| != |"/api/callback"| && |"/login"| != |"/api/auth-url"|;
    }
  }

  // ---- OAuth callback ----

  /** What the token exchange with the provider yields. */
  datatype TokenExchange =
    | TokenRequestFailed
    | TokenUnparsable
    | Token(accessToken: string, expiresIn: U64, refreshToken: Option<string>)

  /** What the user-info request yields. */
  datatype UserInfoFetch =
    | UserInfoRequestFailed
    | UserInfoUnparsable
    | UserInfo(name: string, id: string)

  /** The callback's answer: a plain-text status, or the redirect home. */
  datatype CallbackBody = PlainText(text: string) | Location(url: string)

  /** The backend's sled database: raw values by string key; `healthy` is false when inserts fail. */
  class UserDb {
    var entries: map<string, seq<Byte>>
    var healthy: bool

    /** `sled::open`: the database as it already stands on disk. */
    constructor (entries: map<string, seq<Byte>>, healthy: bool)
      ensures this.entries == entries && this.healthy == healthy
    {
      this.entries := entries;
      this.healthy := healthy;
    }

    /** `db.insert(key, value)`. */
    method Insert(key: string, value: seq<Byte>) returns (ok: bool)
      modifies this`entries
      ensures ok == healthy
      ensures entries == if ok then old(entries)[key := value] else old(entries)
    {
      if !healthy {
        return false;
      }
      entries := entries[key := value];
      ok := true;
    }
  }

  /** The storage key of a user: `format!("user:{}", id)`. */
  function UserKey(id: string): (key: string)
    ensures |key| == 5 + |id| && key[5..] == id
  {
    "user:" + id
  }

  /** Different users are stored under different keys. */
  lemma UserKeyInjective(a: string, b: string)
    ensures UserKey(a) == UserKey(b) <==> a == b
  {
    if UserKey(a) == UserKey(b) {
      assert a == UserKey(a)[5..];
    }
  }

  /**
   * The user the callback stores: provider id and name, the access and refresh
   * tokens, and an expiry `expires_in` seconds after the clock (a `u64` sum,
   * wrapping as a release build does).
   */
  function CallbackUser(token: TokenExchange, info: UserInfoFetch, now: I64): (u: User)
    requires token.Token? && info.UserInfo?
    ensures u.id == info.id && u.username == info.name
    ensures u.accessToken == token.accessToken && u.refreshToken == token.refreshToken
    ensures Clock(now) + token.expiresIn < TWO_64 ==> u.expiresAt == Clock(now) + token.expiresIn
  {
    User(info.id, info.name, token.accessToken, token.refreshToken, (Clock(now) + token.expiresIn) % TWO_64)
  }

  /**
   * `oauth_callback`: 400 without a `code` query parameter, before any
   * network call; 500 for each failing provider step; otherwise the user is
   * inserted under "user:{id}" and only then written to the session as
   * "user", and the answer is a redirect to "/".
   */
  method OAuthCallback(query: map<string, string>, exchange: string -> TokenExchange,
                       fetchUser: string -> UserInfoFetch, now: I64,
                       toBytes: User -> seq<Byte>, toJson: User -> string,
                       db: UserDb, session: Session)
    returns (resp: Response<CallbackBody>)
    modifies db`entries, session`entries
    ensures "code" !in query ==>
      resp == Response(BAD_REQUEST, PlainText("Missing code parameter"))
      && db.entries == old(db.entries) && session.entries == old(session.entries)
    ensures "code" in query ==>
      var token := exchange(query["code"]);
      && (token == TokenRequestFailed ==> resp == Response(INTERNAL_SERVER_ERROR, PlainText("Token request failed")))
      && (token == TokenUnparsable ==> resp == Response(INTERNAL_SERVER_ERROR, PlainText("Failed to parse token response")))
      && (token.Token? ==>
            var info := fetchUser(token.accessToken);
            && (info == UserInfoRequestFailed ==> resp == Response(INTERNAL_SERVER_ERROR, PlainText("User info request failed")))
            && (info == UserInfoUnparsable ==> resp == Response(INTERNAL_SERVER_ERROR, PlainText("Failed to parse user info")))
            && (info.UserInfo? ==>
                  var user := CallbackUser(token, info, now);
                  && db.entries == (if db.healthy then old(db.entries)[UserKey(user.id) := toBytes(user)] else old(db.entries))
                  && session.entries == (if db.healthy && session.healthy then old(session.entries)["user" := toJson(user)]
                                         else old(session.entries))
                  && resp == (if !db.healthy then Response(INTERNAL_SERVER_ERROR, PlainText("Failed to store user in database"))
                              else if !session.healthy then Response(INTERNAL_SERVER_ERROR, PlainText("Failed to store user in session"))
                              else Response(FOUND, Location("/")))))
    ensures session.entries != old(session.entries) ==> db.healthy && "code" in query
    ensures db.entries != old(db.entries) || session.entries != old(session.entries) ==>
      "code" in query && exchange(query["code"]).Token? && fetchUser(exchange(query["code"]).accessToken).UserInfo?
  {
    if "code" !in query {
      return Response(BAD_REQUEST, PlainText("Missing code parameter"));
    }
    var token := exchange(query["code"]);
    match token
    case TokenRequestFailed =>
      return Response(INTERNAL_SERVER_ERROR, PlainText("Token request failed"));
    case TokenUnparsable =>
      return Response(INTERNAL_SERVER_ERROR, PlainText("Failed to parse token response"));
    case Token(accessToken, _, _) =>
      var info := fetchUser(accessToken);
      match info
      case UserInfoRequestFailed =>
        return Response(INTERNAL_SERVER_ERROR, PlainText("User info request failed"));
      case UserInfoUnparsable =>
        return Response(INTERNAL_SERVER_ERROR, PlainText("Failed to parse user info"));
      case UserInfo(_, _) =>
        var user := CallbackUser(token, info, now);
        var stored := db.Insert(UserKey(user.id), toBytes(user));
        if !stored {
          return Response(INTERNAL_SERVER_ERROR, PlainText("Failed to store user in database"));
        }
        var kept := session.Insert("user", toJson(user));
        if !kept {
          return Response(INTERNAL_SERVER_ERROR, PlainText("Failed to store user in session"));
        }
        resp := Response(FOUND, Location("/"));
  }

  /**
   * After a successful callback, the session it wrote admits the user on any
   * protected path until the provider's `expires_in` has elapsed, and not
   * from that second on, provided parsing reads back what was written.
   */
  lemma CallbackSessionAdmits(token: TokenExchange, info: UserInfoFetch, signedInAt: I64, now: I64, path: string,
                              toJson: User -> string, parse: string -> Option<User>)
    requires token.Token? && info.UserInfo? && path !in PUBLIC_PATHS
    requires var u := CallbackUser(token, info, signedInAt); parse(toJson(u)) == Some(u)
    requires 0 <= signedInAt <= now && signedInAt + token.expiresIn < TWO_64
    ensures var u := CallbackUser(token, info, signedInAt);
      SessionDecide(path, Some(toJson(u)), parse, now) == if now < signedInAt + token.expiresIn then Admit(u) else Refuse
  {
  }
}
