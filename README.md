# govideo session-authenticated gateway, in Dafny

This project models the authentication gateway of govideo, a media-serving web
application. The gateway has three tiers:

- a credential lookup in the database (`GetUserFromDB`);
- a Redis user cache that holds the serialised user under the derived key
  `secret + ":user:" + email`, where `secret` is a random value generated once
  for the process;
- a cookie session whose private slot (`sessionKey`) holds that cache key.

`Authenticate` logs a user in by writing the cache entry and then the session
slot. `CurUser` resolves a request's session slot through the cache back to a
user. `ClearUser` removes the slot and then the cache entry. The middleware
runs the downstream handler only when `CurUser` succeeds, and otherwise
answers 401.

Layout:

- `types.dfy` (module `Types`): bytes, Go strings as byte sequences, `Option`,
  `Result` and the gateway's errors.
- `cache.dfy` (module `Cache`, from `govideo/redisclient.go`): key derivation
  and its inverse, the `RedisClient` class whose `store` field is the Redis
  database, and lemmas showing that entries of distinct users never collide.
- `session.dfy` (module `Sessions`): the cookie session of one request. It is
  a map from slot names to values, plus what a successful `Save` wrote into the
  response cookie.
- `auth.dfy` (module `Auth`, from `govideo/authclient.go`): the `AuthClient`
  class. It has methods for the steps that change the session and the cache,
  functions for the read-only lookups, and the gate.

Modelling choices:

- A Go string is a sequence of bytes, so `[]byte(s)` leaves the contents
  unchanged. The ":user:" infix is written out as its six bytes.
- Code that is not part of this model is represented by values the caller
  supplies:
  - `GenerateKey` by its result;
  - `GetUserFromDB` and `models.User.Marshal`/`Unmarshal` by function-valued
    fields of `AuthClient`;
  - each Redis command's reply error, and the session save's error, by an
    `Option<Error>` parameter (`None` means the operation succeeded).
- The round trip of `Marshal` and `Unmarshal` is the explicit hypothesis
  `CodecRoundTrips`. It is assumed only by the members that need it.
- Within one request, each call to the cookie store's `Get` returns the same
  session object. So a request's session is one `Session` object, passed to
  every operation.
- Two behaviours of the code are kept as written:
  - `ClearUser` with no session slot returns the `getSession` error and
    changes nothing (govideo/authclient.go:119-122). A second logout
    therefore fails.
  - `clearSession` removes the slot from the in-memory session before saving
    (govideo/authclient.go:188-191). When the save fails, the slot is gone
    from this request's session but no cookie is written, and `ClearUser`
    returns before deleting the cache entry (govideo/authclient.go:123-126).

## Model

| member | source | states |
|---|---|---|
| `Cache.ParseKey` | govideo/redisclient.go:56 | a key parses to a user id only when it is exactly the key derived from that id under the secret, so each id has at most one key |
| `Cache.KeyRoundTrip` | govideo/redisclient.go:56 | the key derived for a user id parses back to that id |
| `Cache.DeriveKeyInjective` | govideo/redisclient.go:56 | for a fixed secret, two user ids give the same key if and only if they are equal |
| `Cache.OtherUserUnaffected` | govideo/redisclient.go:56-57 | storing one user's entry leaves another user's key present or absent as before, with its old value |
| `Cache.DistinctLoginsIndependent` | govideo/redisclient.go:53-58 | after SETEX for any number of pairwise distinct users, each user's derived key holds that user's own data |
| `Cache.SetAllKeepsUntouched` | govideo/redisclient.go:56-57 | SETEX commands for other users leave a user's entry exactly as it was |
| `Cache.RedisClient.constructor` | govideo/redisclient.go:23-49 | the client keeps the secret and the expiry it was built with |
| `Cache.RedisClient.SetAuthCache` | govideo/redisclient.go:53-58 | the returned key is exactly `secret + ":user:" + userID`; on success only that key changes in the store, now mapping to the data (replacing any earlier value), and a GET of it returns the data; on a reply error the store is unchanged and the error is returned |
| `Cache.RedisClient.GetAuthCache` | govideo/redisclient.go:62-66 | returns data exactly when the connection works and the key is present, and then the stored value; an absent key gives `ErrNil`; a connection error is returned as is |
| `Cache.RedisClient.ClearAuthCache` | govideo/redisclient.go:69-74 | on success exactly the given key is removed and every other key keeps its value; on error the store is unchanged |
| `Cache.NewRedisClient` | govideo/redisclient.go:18-50 | a failed secret generation yields no client and that error; otherwise a fresh client with the generated secret |
| `Sessions.Session.Open` | govideo/authclient.go:171 | the session of a request is the decoded cookie's values, or an empty session when there is no valid cookie |
| `Sessions.Session.Save` | govideo/authclient.go:178 | a save keeps the values, writes them to the response cookie when it succeeds, and returns the save error otherwise |
| `Auth.AuthClient.constructor` | govideo/authclient.go:42-50 | the gateway keeps its collaborators and keys, and redirects to "/login" |
| `Auth.AuthClient.Validate` | govideo/authclient.go:131-135 | the e-mail and the password bytes reach the database lookup unchanged, with no hashing or normalisation, and its result is returned as is |
| `Auth.AuthClient.GetSession` | govideo/authclient.go:194-206 | succeeds if and only if the session has the `sessionKey` slot, and then returns its value; otherwise fails with "failed to get user session" |
| `Auth.AuthClient.GetCache` | govideo/authclient.go:149-164 | a reply error or an absent entry is an error; otherwise the result is the deserialisation of the stored bytes, including its failure |
| `Auth.AuthClient.CurUser` | govideo/authclient.go:104-115 | resolves to a user if and only if the slot is present, the GET works, the entry exists and deserialises; the user is the deserialised entry; no slot gives the no-session error |
| `Auth.AuthClient.LookupFindsCachedUser` | govideo/authclient.go:104-115 | when the codec round-trips and the slot names an entry holding a user's encoding, the lookup returns that user, or the GET's error |
| `Auth.AuthClient.SetCache` | govideo/authclient.go:137-147 | a serialisation failure returns no key and the error and leaves the cache unchanged; otherwise the user is stored under its derived key when the SETEX succeeds |
| `Auth.AuthClient.ClearCache` | govideo/authclient.go:166-168 | on success exactly the given key is deleted; on error the cache is unchanged |
| `Auth.AuthClient.SetSession` | govideo/authclient.go:170-179 | only the `sessionKey` slot changes, to the given key, and the session is then saved |
| `Auth.AuthClient.ClearSession` | govideo/authclient.go:181-192 | only the `sessionKey` slot is removed, whether or not it was present, and the session is then saved |
| `Auth.AuthClient.Authenticate` | govideo/authclient.go:90-101 | failed validation, serialisation or cache write return no user and the error, leave the session untouched, and leave the cache unchanged; otherwise the cache holds the serialised db user under the derived key, the slot holds that same key, and the db user is returned with the save's result; if the codec round-trips, a following lookup returns the db user |
| `Auth.AuthClient.ClearUser` | govideo/authclient.go:118-128 | with no slot: the no-session error and no change; otherwise exactly the slot is removed, a failed save returns its error before the cache is touched, and then exactly the named entry is deleted; afterwards this request's session never resolves to a user |
| `Auth.AuthClient.AuthMiddleware` | govideo/authclient.go:73-81 | yields the user to attach if and only if the lookup succeeds; otherwise a 401 carrying the lookup's error |
| `Auth.AuthClient.Middleware` | govideo/authclient.go:54-61 | the handler's outcome, computed on the resolved user, is produced if and only if the lookup succeeds; otherwise the answer is 401 carrying the lookup's error |
| `Auth.AuthClient.HttprouterMiddleware` | govideo/authclient.go:64-71 | as Middleware, for a handler that also receives the route parameters: the handler runs on the resolved user if and only if the lookup succeeds, otherwise 401 carrying the lookup's error |
| `Auth.NewAuthClient` | govideo/authclient.go:29-51 | the first failing key generation yields no gateway and its error; otherwise a fresh gateway with the three generated keys and "/login" |
| `Auth.LoginThenNextRequest` | govideo/authclient.go:90-115 | with the SETEX and the save succeeding, a login succeeds exactly when validation and serialisation do; then the browser's next request, bearing the cookie the login wrote, resolves to the db user; after a failed login, which writes no cookie, the next request bears the old cookie and resolves exactly as before the login |
| `Auth.LogoutThenNextRequest` | govideo/authclient.go:104-128 | after a logout that found the slot and saved, the next request has no session; after a complete logout, replaying the pre-logout cookie fails too, because its cache entry is gone; after a failed logout, the pre-logout cookie still resolves as before, and a failed save leaves the next request logged in |

## Left out

- The Redis connection pool (Dial, AUTH, SELECT, idle timeouts) is network code and is not modelled. A command's effect is reduced to its reply error.
- Cache.RedisClient.SetAuthCache: a SETEX that reports an error is modelled as leaving the store unchanged. The real server may have applied a command whose reply was lost. The same holds for `ClearAuthCache` and DEL.
- Expiry (the SETEX TTL and the parsing of the `expiry` string) is left out. Redis evaluates it. An expired entry behaves like an entry that was never written, so it is covered by the absent-key case.
- Signing and encoding of the gorilla `CookieStore` cookie, and the transport of `session.Save`, are reduced to "the save succeeds or reports an error".
- The `session == nil && err != nil` branches (govideo/authclient.go:172, 183, 196) are left out. The cookie store always returns a session, so opening a session is total here.
- The `userData.([]byte)` type assertion (govideo/authclient.go:205) cannot fail here, because session values are modelled as bytes only.
- `GenerateKey`, `GetUserFromDB` and `models.User.Marshal`/`Unmarshal` are not part of this model. They are supplied values, and the codec round trip is the hypothesis `CodecRoundTrips`. `models.User` is reduced to an e-mail and a credential.
- `ErrorHandler`'s response body, `Redirect` and `context.WithValue` are represented only by their outcome: the 401 status, whether the handler runs, and the user passed on.
- Concurrency between requests and inside the connection pool is left out. `Cache.SetAll` sequences several logins in one order instead.
- govideo/app.go (HTTP routing, configuration, the file system wrapper), webpack.config.js and src/jsx/pages/index.js hold no gateway logic and are not part of this model.
