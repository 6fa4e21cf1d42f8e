/** The user cache: key derivation and the SETEX / GET / DEL commands the
    gateway sends to Redis (govideo/redisclient.go). The Redis database is a
    map from keys to values; the error a connection reports for one command is
    a parameter (None when Redis executes the command). */
module Cache {
  import opened Types

  /** The bytes of ":user:", which separate the process secret from the user id. */
  const UserInfix: seq<byte> := [0x3A, 0x75, 0x73, 0x65, 0x72, 0x3A]

  /** The cache key of a user: `secret + ":user:" + userID`, as bytes. */
  function DeriveKey(secret: GoString, userID: GoString): seq<byte>
  {
    secret + UserInfix + userID
  }

  /** The inverse of DeriveKey for a fixed secret: the user id a key belongs
      to, if the key has the derived shape at all. */
  function ParseKey(secret: GoString, key: seq<byte>): (userID: Option<GoString>)
    ensures userID.Some? ==> DeriveKey(secret, userID.value) == key
  {
    var n := |secret| + |UserInfix|;
    if n <= |key| && key[..|secret|] == secret && key[|secret|..n] == UserInfix then
      assert key == key[..|secret|] + key[|secret|..n] + key[n..];
      Some(key[n..])
    else
      None
  }

  /** A derived key always parses back to the id it was derived from. */
  lemma KeyRoundTrip(secret: GoString, userID: GoString)
    ensures ParseKey(secret, DeriveKey(secret, userID)) == Some(userID)
  {
  }

  /** For one secret, two users share a cache key exactly when they are the
      same user. */
  lemma DeriveKeyInjective(secret: GoString, a: GoString, b: GoString)
    ensures DeriveKey(secret, a) == DeriveKey(secret, b) <==> a == b
  {
    KeyRoundTrip(secret, a);
    KeyRoundTrip(secret, b);
  }

  /** Storing one user's entry leaves every other user's entry as it was. */
  lemma OtherUserUnaffected(store: map<seq<byte>, seq<byte>>, secret: GoString, a: GoString, b: GoString, data: seq<byte>)
    requires a != b
    ensures var after, kb := store[DeriveKey(secret, a) := data], DeriveKey(secret, b);
      (kb in after <==> kb in store) && (kb in store ==> after[kb] == store[kb])
  {
    DeriveKeyInjective(secret, a, b);
  }

  /** The database after one successful SETEX per (user id, data) pair, in order. */
  function SetAll(store: map<seq<byte>, seq<byte>>, secret: GoString, writes: seq<(GoString, seq<byte>)>): map<seq<byte>, seq<byte>>
    decreases |writes|
  {
    if writes == [] then store
    else SetAll(store[DeriveKey(secret, writes[0].0) := writes[0].1], secret, writes[1..])
  }

  /** Logins of pairwise distinct users never overwrite each other: after all
      of them, each user's derived key holds that user's own data. */
  lemma {:induction false} DistinctLoginsIndependent(store: map<seq<byte>, seq<byte>>, secret: GoString, writes: seq<(GoString, seq<byte>)>, i: nat)
    requires i < |writes|
    requires forall j, k :: 0 <= j < k < |writes| ==> writes[j].0 != writes[k].0
    ensures DeriveKey(secret, writes[i].0) in SetAll(store, secret, writes)
    ensures SetAll(store, secret, writes)[DeriveKey(secret, writes[i].0)] == writes[i].1
    decreases |writes|
  {
    var next := store[DeriveKey(secret, writes[0].0) := writes[0].1];
    if i == 0 {
      SetAllKeepsUntouched(next, secret, writes[1..], writes[0].0);
    } else {
      DistinctLoginsIndependent(next, secret, writes[1..], i - 1);
    }
  }

  /** Writes for other users leave a user's entry alone. */
  lemma {:induction false} SetAllKeepsUntouched(store: map<seq<byte>, seq<byte>>, secret: GoString, writes: seq<(GoString, seq<byte>)>, id: GoString)
    requires forall j :: 0 <= j < |writes| ==> writes[j].0 != id
    ensures var k := DeriveKey(secret, id);
      (k in SetAll(store, secret, writes) <==> k in store)
      && (k in store ==> SetAll(store, secret, writes)[k] == store[k])
    decreases |writes|
  {
    if writes != [] {
      OtherUserUnaffected(store, secret, writes[0].0, id, writes[0].1);
      SetAllKeepsUntouched(store[DeriveKey(secret, writes[0].0) := writes[0].1], secret, writes[1..], id);
    }
  }

  /** A handle on the Redis database. The connection pool is not modelled;
      `store` is what the database holds. */
  class RedisClient {
    /** The random namespace of every cache key, generated once. */
    const secret: GoString
    /** The SETEX expiry argument, passed to Redis uninterpreted. */
    const expiry: GoString
    /** The contents of the Redis database. */
    var store: map<seq<byte>, seq<byte>>

    constructor (secret: GoString, expiry: GoString, store: map<seq<byte>, seq<byte>>)
      ensures this.secret == secret && this.expiry == expiry && this.store == store
    {
      this.secret := secret;
      this.expiry := expiry;
      this.store := store;
    }

    /** SETEX the user's data under its derived key and return that key,
        whatever the reply. */
    method SetAuthCache(userID: GoString, data: seq<byte>, connErr: Option<Error>) returns (key: seq<byte>, err: Option<Error>)
      modifies this
      ensures key == DeriveKey(secret, userID)
      ensures err == connErr
      ensures store == if connErr.None? then old(store)[key := data] else old(store)
      ensures connErr.None? ==> GetAuthCache(key, None) == Success(data)
    {
      key := DeriveKey(secret, userID);
      err := connErr;
      if connErr.None? {
        store := store[key := data];
      }
    }

    /** GET a key; a nil reply becomes ErrNil, as `redis.Bytes` makes it. */
    function GetAuthCache(key: seq<byte>, connErr: Option<Error>): (r: Result<seq<byte>>)
      reads this
      ensures r.Success? <==> connErr.None? && key in store
      ensures r.Success? ==> r.value == store[key]
      ensures connErr.Some? ==> r == Failure(connErr.value)
      ensures connErr.None? && key !in store ==> r == Failure(ErrNil)
    {
      if connErr.Some? then Failure(connErr.value)
      else if key in store then Success(store[key])
      else Failure(ErrNil)
    }

    /** DEL a key. */
    method ClearAuthCache(key: seq<byte>, connErr: Option<Error>) returns (err: Option<Error>)
      modifies this
      ensures err == connErr
      ensures store == if connErr.None? then old(store) - {key} else old(store)
      ensures connErr.None? ==> GetAuthCache(key, None) == Failure(ErrNil)
    {
      err := connErr;
      if connErr.None? {
        store := store - {key};
      }
    }
  }

  /** Build a client around a freshly generated secret; `generated` is what
      GenerateKey returned. */
  method NewRedisClient(generated: Result<GoString>, expiry: GoString, store: map<seq<byte>, seq<byte>>)
    returns (rc: RedisClient?, err: Option<Error>)
    ensures generated.Failure? ==> rc == null && err == Some(generated.error)
    ensures generated.Success? ==> err == None && rc != null && fresh(rc)
    ensures generated.Success? ==> rc.secret == generated.value && rc.expiry == expiry && rc.store == store
  {
    if generated.Failure? {
      return null, Some(generated.error);
    }
    rc := new RedisClient(generated.value, expiry, store);
    err := None;
  }
}
