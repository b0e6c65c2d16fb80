/**
 * The textile collaborators as values: the session context, the database client,
 * buckets, the calls the workflow makes into the libraries, and the answers those
 * calls give during one step run.
 */
module Textile {
  import opened Wrappers

  /** A thread id, by its string form. */
  type ThreadId = string

  /** The developer credentials attached to a new context ({key, secret, type}). */
  datatype UserKey = UserKey(key: string, secret: string, keyType: int)

  /** A session context: credentials, bearer token and target thread. */
  datatype Context = Context(userKey: Option<UserKey>, token: Option<string>, thread: Option<ThreadId>)

  /** `new Context(API_URL)`: nothing attached yet. */
  const NEW_CONTEXT := Context(None, None, None)

  /** `ctx.withUserKey(...)`: attach the developer credentials. */
  function WithUserKey(c: Context, k: UserKey): (r: Context)
    ensures r.userKey == Some(k) && r.token == c.token && r.thread == c.thread
  {
    c.(userKey := Some(k))
  }

  /** A thread-database client; it works on (and shares) the context it was built on. */
  datatype Client = Client(context: Context)

  /** An entry of the bucket list. */
  datatype Bucket = Bucket(name: string, key: string)

  /** A call into the textile libraries that reaches the hub or generates a key. */
  datatype Call =
    | IdentityFromRandom
    | GetToken(identity: string)
    | NewDB(thread: ThreadId)
    | NewCollection(thread: ThreadId, collection: string)
    | Create(onThread: Option<ThreadId>, collection: string)
    | Find(onThread: Option<ThreadId>, collection: string, field: string, value: string)
    | Delete(onThread: Option<ThreadId>, collection: string, ids: seq<string>)
    | ListBuckets
    | InitBucket(name: string)
    | PushPath(bucketKey: string, path: string)

  /**
   * What the collaborators answer during one step run: each value is what the
   * named call returns, or the error it raises. `now` is the clock reading.
   */
  datatype Replies = Replies(
    now: int,
    identityFromString: Outcome,             // Libp2pCryptoIdentity.fromString of the cached form
    identityFromRandom: Result<string>,      // the string form of a freshly generated identity
    getToken: Result<string>,                // db.getToken(identity)
    threadFromString: Outcome,               // ThreadID.fromString of the cached form
    threadFromRandom: ThreadId,              // ThreadID.fromRandom()
    newDB: Outcome,
    newCollection: Outcome,
    create: Result<seq<string>>,             // the ids of the created instances
    find: Result<seq<string>>,               // the ids of the matching instances
    delete: Outcome,
    list: Result<seq<Bucket>>,
    init: Result<string>,                    // the root key of the created bucket
    pushPath: Outcome
  )

  /**
   * The parts of the environment fixed for the app's lifetime: the developer
   * credentials and the context's serialised form. `encode` is JSON.stringify of
   * toJSON. Reading an entry back takes two stages: `sigExpiry` is JSON.parse
   * (which may raise) followed by Date.parse of the `x-textile-api-sig-msg` field
   * (None when that field is missing, empty or not a date), and `fromJSON` is
   * Context.fromJSON of the parsed entry, which may raise.
   */
  datatype Env = Env(
    credentials: UserKey,
    encode: Context -> string,
    sigExpiry: string -> Result<Option<int>>,
    fromJSON: string -> Result<Context>)

  /** The index of the first bucket with the given name, or |roots| when none has it (Array.find). */
  function FirstNamed(roots: seq<Bucket>, name: string): (i: nat)
    ensures i <= |roots|
    ensures i < |roots| ==> roots[i].name == name
    ensures forall j :: 0 <= j < i ==> roots[j].name != name
  {
    if roots == [] then 0
    else if roots[0].name == name then 0
    else 1 + FirstNamed(roots[1..], name)
  }

  /** `roots.find((bucket) => bucket.name === name)`. */
  function FindBucket(roots: seq<Bucket>, name: string): (r: Option<Bucket>)
    ensures r.None? <==> forall j :: 0 <= j < |roots| ==> roots[j].name != name
    ensures r.Some? ==> r.value in roots && r.value.name == name
    ensures r.Some? ==> r.value == roots[FirstNamed(roots, name)]
  {
    var i := FirstNamed(roots, name);
    if i < |roots| then Some(roots[i]) else None
  }

  const GATEWAY_SCHEME := "https://"
  const GATEWAY_SUFFIX := ".ipns.hub.staging.textile.io"

  /** The public viewer URL of a bucket. */
  function BucketUrl(key: string): (url: string)
    ensures |url| == |GATEWAY_SCHEME| + |key| + |GATEWAY_SUFFIX|
    ensures url[..|GATEWAY_SCHEME|] == GATEWAY_SCHEME
    ensures url[|GATEWAY_SCHEME|..|GATEWAY_SCHEME| + |key|] == key
    ensures url[|GATEWAY_SCHEME| + |key|..] == GATEWAY_SUFFIX
  {
    GATEWAY_SCHEME + key + GATEWAY_SUFFIX
  }

  /** The bucket key a viewer URL names; the inverse of BucketUrl. */
  function BucketKeyOf(url: string): Option<string>
  {
    if |url| >= |GATEWAY_SCHEME| + |GATEWAY_SUFFIX|
       && url[..|GATEWAY_SCHEME|] == GATEWAY_SCHEME
       && url[|url| - |GATEWAY_SUFFIX|..] == GATEWAY_SUFFIX
    then Some(url[|GATEWAY_SCHEME|..|url| - |GATEWAY_SUFFIX|])
    else None
  }

  /** The key can be read back from the URL, so distinct buckets get distinct URLs. */
  lemma BucketUrlRoundTrip(key: string)
    ensures BucketKeyOf(BucketUrl(key)) == Some(key)
  {
  }

  lemma BucketUrlInjective(a: string, b: string)
    ensures BucketUrl(a) == BucketUrl(b) ==> a == b
  {
  }
}
