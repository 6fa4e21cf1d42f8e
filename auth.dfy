/** The session-authenticated gateway (govideo/authclient.go): login writes the
    serialised user into the cache under its derived key and stores that key in
    the request's cookie session; later requests resolve the key back to the
    user; logout removes both; the middleware lets a request through only when
    a user resolves.

    Collaborators whose code is not part of this model are parameters: the
    database lookup `getUserFromDB`, the user codec `marshal` / `unmarshal`,
    the keys GenerateKey returned, and the error (if any) each Redis command or
    session save reports. */
module Auth {
  import opened Types
  import opened Cache
  import opened Sessions

  /** The user record, reduced to what the gateway depends on: the e-mail that
      seeds the cache key, and the stored credential. */
  datatype User = User(email: GoString, password: seq<byte>)

  /** The hypothesis that decoding undoes encoding. */
  ghost predicate CodecRoundTrips(marshal: User -> Result<seq<byte>>, unmarshal: seq<byte> -> Result<User>)
  {
    forall u :: marshal(u).Success? ==> unmarshal(marshal(u).value) == Success(u)
  }

  const StatusUnauthorized: int := 401

  /** The bytes of "/login", the default redirect target. */
  const LoginURI: GoString := [0x2F, 0x6C, 0x6F, 0x67, 0x69, 0x6E]

  /** What the authentication gate does with one request: pass it on with a
      value (the downstream handler's outcome, or the resolved user), or
      answer it with an error status. */
  datatype Gate<R> = Pass(value: R) | Reject(status: int, reason: Error)

  class AuthClient {
    /** The user cache, shared with other consumers of the Redis database. */
    const cache: RedisClient
    /** The database lookup of a user by e-mail and password. */
    const getUserFromDB: (GoString, seq<byte>) -> Result<User>
    /** The user codec used for cache storage. */
    const marshal: User -> Result<seq<byte>>
    const unmarshal: seq<byte> -> Result<User>
    const redirectURI: GoString
    /** The name of the session cookie. */
    const cookieKey: GoString
    /** The private slot of the session that holds the cache key. */
    const sessionKey: GoString
    /** The private request-context key the resolved user is attached under. */
    const contextKey: GoString

    constructor (cache: RedisClient, getUserFromDB: (GoString, seq<byte>) -> Result<User>,
                 marshal: User -> Result<seq<byte>>, unmarshal: seq<byte> -> Result<User>,
                 cookieKey: GoString, sessionKey: GoString, contextKey: GoString)
      ensures this.cache == cache && this.getUserFromDB == getUserFromDB
      ensures this.marshal == marshal && this.unmarshal == unmarshal
      ensures redirectURI == LoginURI
      ensures this.cookieKey == cookieKey && this.sessionKey == sessionKey && this.contextKey == contextKey
    {
      this.cache := cache;
      this.getUserFromDB := getUserFromDB;
      this.marshal := marshal;
      this.unmarshal := unmarshal;
      this.redirectURI := LoginURI;
      this.cookieKey := cookieKey;
      this.sessionKey := sessionKey;
      this.contextKey := contextKey;
    }

    /** The credential check is delegated to the database: the e-mail and the
        password bytes reach it unchanged, with no hashing or normalisation. */
    function Validate(email: GoString, password: GoString): (r: Result<User>)
      ensures r == getUserFromDB(email, password)
    {
      getUserFromDB(email, password)
    }

    /** The cache key the session holds, if it holds one. */
    function GetSession(session: Session): (r: Result<seq<byte>>)
      reads session
      ensures r.Success? <==> sessionKey in session.values
      ensures r.Success? ==> r.value == session.values[sessionKey]
      ensures r.Failure? ==> r.error == ErrNoSession
    {
      if sessionKey in session.values then Success(session.values[sessionKey]) else Failure(ErrNoSession)
    }

    /** The user cached under `key`; `getErr` is the error the GET reports. */
    function GetCache(key: seq<byte>, getErr: Option<Error>): (r: Result<User>)
      reads cache
      ensures getErr.Some? ==> r == Failure(getErr.value)
      ensures getErr.None? && key !in cache.store ==> r == Failure(ErrNil)
      ensures getErr.None? && key in cache.store ==> r == unmarshal(cache.store[key])
    {
      match cache.GetAuthCache(key, getErr)
      case Failure(e) => Failure(e)
      case Success(data) => unmarshal(data)
    }

    /** The logged-in user of a request: its session slot names a cache entry
        that decodes to a user. */
    function CurUser(session: Session, getErr: Option<Error>): (r: Result<User>)
      reads session, cache
      ensures sessionKey !in session.values ==> r == Failure(ErrNoSession)
      ensures r.Success? <==>
        && sessionKey in session.values
        && getErr.None?
        && session.values[sessionKey] in cache.store
        && unmarshal(cache.store[session.values[sessionKey]]).Success?
      ensures r.Success? ==> r == unmarshal(cache.store[session.values[sessionKey]])
    {
      match GetSession(session)
      case Failure(e) => Failure(e)
      case Success(key) => GetCache(key, getErr)
    }

    /** A session whose slot holds the key of a cache entry that holds a
        user's encoding resolves to that user. */
    lemma LookupFindsCachedUser(session: Session, u: User, getErr: Option<Error>)
      requires CodecRoundTrips(marshal, unmarshal)
      requires marshal(u).Success?
      requires sessionKey in session.values && session.values[sessionKey] in cache.store
      requires cache.store[session.values[sessionKey]] == marshal(u).value
      ensures CurUser(session, getErr) == if getErr.None? then Success(u) else Failure(getErr.value)
    {
    }

    /** Serialise the user and SETEX it under its derived key. */
    method SetCache(u: User, setexErr: Option<Error>) returns (key: seq<byte>, err: Option<Error>)
      modifies cache
      ensures marshal(u).Failure? ==> key == [] && err == Some(marshal(u).error) && cache.store == old(cache.store)
      ensures marshal(u).Success? ==> key == DeriveKey(cache.secret, u.email) && err == setexErr
      ensures marshal(u).Success? && setexErr.None? ==> cache.store == old(cache.store)[key := marshal(u).value]
      ensures marshal(u).Success? && setexErr.Some? ==> cache.store == old(cache.store)
    {
      var encoded := marshal(u);
      if encoded.Failure? {
        return [], Some(encoded.error);
      }
      key, err := cache.SetAuthCache(u.email, encoded.value, setexErr);
    }

    /** DEL the cache entry under `key`. */
    method ClearCache(key: seq<byte>, delErr: Option<Error>) returns (err: Option<Error>)
      modifies cache
      ensures err == delErr
      ensures cache.store == if delErr.None? then old(cache.store) - {key} else old(cache.store)
    {
      err := cache.ClearAuthCache(key, delErr);
    }

    /** Store the cache key in the session slot and save the session. */
    method SetSession(session: Session, key: seq<byte>, saveErr: Option<Error>) returns (err: Option<Error>)
      modifies session
      ensures session.values == old(session.values)[sessionKey := key]
      ensures err == saveErr
      ensures session.saved == if saveErr.None? then Some(session.values) else old(session.saved)
    {
      session.values := session.values[sessionKey := key];
      err := session.Save(saveErr);
    }

    /** Remove the session slot, if present, and save the session. */
    method ClearSession(session: Session, saveErr: Option<Error>) returns (err: Option<Error>)
      modifies session
      ensures session.values == old(session.values) - {sessionKey}
      ensures err == saveErr
      ensures session.saved == if saveErr.None? then Some(session.values) else old(session.saved)
    {
      if sessionKey in session.values {
        session.values := session.values - {sessionKey};
      }
      err := session.Save(saveErr);
    }

    /** Log a user in: validate the credentials, cache the user, remember the
        cache key in the session. */
    method Authenticate(session: Session, email: GoString, password: GoString, setexErr: Option<Error>, saveErr: Option<Error>)
      returns (user: Option<User>, err: Option<Error>)
      modifies session, cache
      // rejected credentials: nothing is written
      ensures var v := Validate(email, password);
        v.Failure? ==> user == None && err == Some(v.error) && unchanged(session) && cache.store == old(cache.store)
      // the user does not serialise: nothing is written
      ensures var v := Validate(email, password);
        v.Success? && marshal(v.value).Failure? ==>
          user == None && err == Some(marshal(v.value).error) && unchanged(session) && cache.store == old(cache.store)
      // the cache write fails: the session is not touched
      ensures var v := Validate(email, password);
        v.Success? && marshal(v.value).Success? && setexErr.Some? ==>
          user == None && err == setexErr && unchanged(session) && cache.store == old(cache.store)
      // the cache write succeeds: entry and slot name the same key; the user
      // is returned whatever the session save reports
      ensures var v := Validate(email, password);
        v.Success? && marshal(v.value).Success? && setexErr.None? ==>
          var key := DeriveKey(cache.secret, v.value.email);
          && user == Some(v.value) && err == saveErr
          && cache.store == old(cache.store)[key := marshal(v.value).value]
          && session.values == old(session.values)[sessionKey := key]
          && session.saved == (if saveErr.None? then Some(session.values) else old(session.saved))
      ensures user.Some? ==> Validate(email, password) == Success(user.value)
      // login followed by lookup round-trips
      ensures user.Some? && CodecRoundTrips(marshal, unmarshal) ==> CurUser(session, None) == Success(user.value)
    {
      var validated := Validate(email, password);
      if validated.Failure? {
        return None, Some(validated.error);
      }
      var key, e := SetCache(validated.value, setexErr);
      if e.Some? {
        return None, e;
      }
      err := SetSession(session, key, saveErr);
      user := Some(validated.value);
      if CodecRoundTrips(marshal, unmarshal) {
        LookupFindsCachedUser(session, validated.value, None);
      }
    }

    /** Log the current user out: drop the session slot, then the cache entry
        it named. */
    method ClearUser(session: Session, saveErr: Option<Error>, delErr: Option<Error>) returns (err: Option<Error>)
      modifies session, cache
      // no active session: an error, and nothing changes
      ensures sessionKey !in old(session.values) ==>
        err == Some(ErrNoSession) && unchanged(session) && cache.store == old(cache.store)
      // otherwise exactly the slot is removed from the session
      ensures sessionKey in old(session.values) ==>
        && session.values == old(session.values) - {sessionKey}
        && session.saved == (if saveErr.None? then Some(session.values) else old(session.saved))
      // a failed save stops before the cache is touched
      ensures sessionKey in old(session.values) && saveErr.Some? ==> err == saveErr && cache.store == old(cache.store)
      // otherwise exactly the named entry is deleted
      ensures sessionKey in old(session.values) && saveErr.None? ==>
        && err == delErr
        && cache.store == if delErr.None? then old(cache.store) - {old(session.values)[sessionKey]} else old(cache.store)
      // whatever happened, the session no longer resolves to a user
      ensures forall getErr :: CurUser(session, getErr) == Failure(ErrNoSession)
    {
      var key := GetSession(session);
      if key.Failure? {
        return Some(key.error);
      }
      err := ClearSession(session, saveErr);
      if err.Some? {
        return;
      }
      err := ClearCache(key.value, delErr);
    }

    /** The authentication step of the middleware: the user to attach to the
        request context under `contextKey`, or a 401 answer. */
    function AuthMiddleware(session: Session, getErr: Option<Error>): (g: Gate<User>)
      reads session, cache
      ensures g.Pass? <==> CurUser(session, getErr).Success?
      ensures g.Pass? ==> g.value == CurUser(session, getErr).value
      ensures g.Reject? ==> g.status == StatusUnauthorized && g.reason == CurUser(session, getErr).error
    {
      match CurUser(session, getErr)
      case Success(u) => Pass(u)
      case Failure(e) => Reject(StatusUnauthorized, e)
    }

    /** Wrap a handler: it runs, with the resolved user, exactly when a user
        resolves; otherwise the request is answered with 401. */
    function Middleware<R>(next: User -> R, session: Session, getErr: Option<Error>): (g: Gate<R>)
      reads session, cache
      ensures g.Pass? <==> CurUser(session, getErr).Success?
      ensures g.Pass? ==> g.value == next(CurUser(session, getErr).value)
      ensures g.Reject? ==> g.status == StatusUnauthorized && g.reason == CurUser(session, getErr).error
    {
      match AuthMiddleware(session, getErr)
      case Pass(u) => Pass(next(u))
      case Reject(status, e) => Reject(status, e)
    }

    /** The same gate for a router handler that also receives route parameters. */
    function HttprouterMiddleware<P, R>(next: (User, P) -> R, session: Session, getErr: Option<Error>, ps: P): (g: Gate<R>)
      reads session, cache
      ensures g.Pass? <==> CurUser(session, getErr).Success?
      ensures g.Pass? ==> g.value == next(CurUser(session, getErr).value, ps)
      ensures g.Reject? ==> g.status == StatusUnauthorized && g.reason == CurUser(session, getErr).error
    {
      match AuthMiddleware(session, getErr)
      case Pass(u) => Pass(next(u, ps))
      case Reject(status, e) => Reject(status, e)
    }
  }

  /** Build a gateway; `cookieKey`, `sessionKey` and `contextKey` are what the
      three GenerateKey calls returned, and the first failure is reported. */
  method NewAuthClient(cache: RedisClient, getUserFromDB: (GoString, seq<byte>) -> Result<User>,
                       marshal: User -> Result<seq<byte>>, unmarshal: seq<byte> -> Result<User>,
                       cookieKey: Result<GoString>, sessionKey: Result<GoString>, contextKey: Result<GoString>)
    returns (ac: AuthClient?, err: Option<Error>)
    ensures cookieKey.Failure? ==> ac == null && err == Some(cookieKey.error)
    ensures cookieKey.Success? && sessionKey.Failure? ==> ac == null && err == Some(sessionKey.error)
    ensures cookieKey.Success? && sessionKey.Success? && contextKey.Failure? ==>
      ac == null && err == Some(contextKey.error)
    ensures cookieKey.Success? && sessionKey.Success? && contextKey.Success? ==>
      && err == None && ac != null && fresh(ac)
      && ac.cache == cache && ac.getUserFromDB == getUserFromDB
      && ac.marshal == marshal && ac.unmarshal == unmarshal && ac.redirectURI == LoginURI
      && ac.cookieKey == cookieKey.value && ac.sessionKey == sessionKey.value && ac.contextKey == contextKey.value
  {
    if cookieKey.Failure? {
      return null, Some(cookieKey.error);
    }
    if sessionKey.Failure? {
      return null, Some(sessionKey.error);
    }
    if contextKey.Failure? {
      return null, Some(contextKey.error);
    }
    ac := new AuthClient(cache, getUserFromDB, marshal, unmarshal, cookieKey.value, sessionKey.value, contextKey.value);
    err := None;
  }

  /** A login request whose session had not been saved yet, followed by the
      browser's next request (both Redis commands and the save succeed). That
      request carries the cookie the login response wrote, or the cookie it
      already had when the login wrote none. It resolves to the database user
      exactly when the login returned one, and otherwise exactly as the login
      request itself did before the login. */
  method LoginThenNextRequest(ac: AuthClient, login: Session, email: GoString, password: GoString)
    returns (user: Option<User>, next: Session, current: Result<User>)
    requires CodecRoundTrips(ac.marshal, ac.unmarshal)
    requires login.saved == None
    modifies login, ac.cache
    ensures user.Some? <==> ac.Validate(email, password).Success? && ac.marshal(ac.Validate(email, password).value).Success?
    ensures user.Some? ==> current == Success(user.value) && user == Some(ac.Validate(email, password).value)
    ensures user.None? ==> current == old(ac.CurUser(login, None))
  {
    var prior := login.values;
    var err;
    user, err := ac.Authenticate(login, email, password, None, None);
    next := new Session.Open(if login.saved.Some? then login.saved else Some(prior));
    current := ac.CurUser(next, None);
  }

  /** A logout request whose session had not been saved yet, followed by two
      later requests: `current` carries the cookie the logout response wrote
      (or the old cookie when none was written), `replayed` replays the cookie
      from before the logout. */
  method LogoutThenNextRequest(ac: AuthClient, logout: Session, saveErr: Option<Error>, delErr: Option<Error>)
    returns (err: Option<Error>, current: Result<User>, replayed: Result<User>)
    requires logout.saved == None
    modifies logout, ac.cache
    // a logout whose slot was present and whose save succeeded revokes the new cookie
    ensures old(ac.sessionKey in logout.values) && saveErr.None? ==> current == Failure(ErrNoSession)
    // a complete logout also revokes the old cookie: its cache entry is gone
    ensures err.None? ==> current == Failure(ErrNoSession) && replayed == Failure(ErrNil)
    // a failed logout leaves the old cookie resolving as before
    ensures err.Some? ==> replayed == old(ac.CurUser(logout, None))
    // a failed save writes no cookie, so the next request is not logged out
    ensures saveErr.Some? ==> current == old(ac.CurUser(logout, None))
  {
    var prior := logout.values;
    err := ac.ClearUser(logout, saveErr, delErr);
    var next := new Session.Open(if logout.saved.Some? then logout.saved else Some(prior));
    current := ac.CurUser(next, None);
    var again := new Session.Open(Some(prior));
    replayed := ac.CurUser(again, None);
  }
}
