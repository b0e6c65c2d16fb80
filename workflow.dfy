/**
 * The provisioning workflow as values: the component's state, the cache-backed
 * helpers and the five step bodies as functions of (state, store, replies), and
 * the lemmas that state what the workflow promises. The CheckList class runs the
 * same logic imperatively and is proved to agree with these functions.
 */
module Workflow {
  import opened Wrappers
  import opened Text
  import opened Steps
  import opened Textile
  import opened Storage
  import opened Keys

  /** The component's state (StateProps). `db` is the client built on `ctx`; both share one context. */
  datatype State = State(
    steps: seq<Step>,
    step: int,
    errorMessage: string,
    identity: Option<string>,
    threadId: Option<ThreadId>,
    ctx: Option<Context>,
    db: Option<Client>,
    entityId: Option<string>,
    bucketUrl: Option<string>)
  {
    /** Five steps with their fixed keys and names, known status codes, and an index within the list or just past it. */
    predicate Valid()
    {
      && |steps| == STEP_COUNT
      && 0 <= step <= STEP_COUNT
      && (forall i :: 0 <= i < |steps| ==>
            steps[i].key == INITIAL_STEPS[i].key && steps[i].name == INITIAL_STEPS[i].name && KnownStatus(steps[i].status))
      && (db.Some? <==> ctx.Some?)
      && (db.Some? ==> db.value.context == ctx.value)
    }

    /** Every step before the index succeeded, and every step after it is still pending. */
    predicate Orderly()
    {
      && Valid()
      && (forall i :: 0 <= i < step ==> steps[i].status == SUCCESS)
      && (forall i :: step < i < |steps| ==> steps[i].status == PENDING)
    }
  }

  const INITIAL_STATE := State(INITIAL_STEPS, 0, "", None, None, None, None, None, None)

  lemma InitialStateOrderly()
    ensures INITIAL_STATE.Orderly() && INITIAL_STATE.step == 0
  {
  }

  /** The message (without the error's name) of the TypeError raised by a method call on the undefined client; its wording is the JavaScript engine's. */
  const UNDEFINED_CLIENT := "undefined is not an object"

  const USING_EXISTING := "Using existing Identity"
  const CREATED_NEW := "Created new Identity"
  const THREAD_LINKED := "User Thread linked to Identity"
  const COLLECTION := "Astronaut"
  const BUCKET_NAME := "files"
  const INDEX_PATH := "index.html"

  /** What a helper or a step body did: its value or raised error, the store after it, and the calls it made. */
  datatype Effect<T> = Effect(result: Result<T>, items: map<string, string>, calls: seq<Call>)

  /** A whole step run: the state, the store and the calls made. */
  datatype Run = Run(state: State, items: map<string, string>, calls: seq<Call>)

  /** Record a step's status and message. */
  function Finish(steps: seq<Step>, n: nat, status: int, message: Option<string>): (r: seq<Step>)
    requires n < |steps|
    ensures |r| == |steps| && r[n] == steps[n].(status := status, message := message)
    ensures forall j :: 0 <= j < |steps| && j != n ==> r[j] == steps[j]
  {
    steps[n := steps[n].(status := status, message := message)]
  }

  // ---------------------------------------------------------------------------
  // The cache-backed helpers
  // ---------------------------------------------------------------------------

  /** generateIdentity: restore the cached identity, or generate one and cache its string form. */
  function IdentityEffect(items: map<string, string>, r: Replies): Effect<string>
  {
    match Cached(items, IDENTITY_KEY)
    case Some(s) =>
      Effect(if r.identityFromString.Fail? then Failure(r.identityFromString.error) else Success(s), items, [])
    case None =>
      match r.identityFromRandom
      case Failure(err) => Effect(Failure(err), items, [IdentityFromRandom])
      case Success(s) => Effect(Success(s), items[IDENTITY_KEY := s], [IdentityFromRandom])
  }

  /** A hit returns the cached form and neither generates nor writes; only a miss generates, and writes only what it generated. */
  lemma IdentityCachedOnce(items: map<string, string>, r: Replies)
    ensures var e := IdentityEffect(items, r);
      && (Cached(items, IDENTITY_KEY).Some? ==>
            e.items == items && e.calls == [] && (e.result.Success? ==> e.result.value == items[IDENTITY_KEY]))
      && (Cached(items, IDENTITY_KEY).None? ==>
            e.calls == [IdentityFromRandom] &&
            e.result == r.identityFromRandom &&
            e.items == (if e.result.Success? then items[IDENTITY_KEY := e.result.value] else items))
  {
  }

  /** Two calls against the same store give the same identity; the second generates nothing and writes nothing. */
  lemma IdentityIdempotent(items: map<string, string>, r1: Replies, r2: Replies)
    requires IdentityEffect(items, r1).result.Success?
    requires IdentityEffect(items, r1).result.value != ""
    requires r2.identityFromString == Pass
    ensures var e1 := IdentityEffect(items, r1);
      IdentityEffect(e1.items, r2) == Effect(e1.result, e1.items, [])
  {
  }

  /** getUserToken: restore the cached token for the identity, or request one and cache it. */
  function TokenEffect(items: map<string, string>, id: string, r: Replies): Effect<string>
  {
    var key := Scoped(id, TOKEN_KEY);
    match Cached(items, key)
    case Some(t) => Effect(Success(t), items, [])
    case None =>
      match r.getToken
      case Failure(err) => Effect(Failure(err), items, [GetToken(id)])
      case Success(t) => Effect(Success(t), items[key := t], [GetToken(id)])
  }

  /** A hit returns the cached token with no remote call and no write; a miss asks the hub once and caches the answer. */
  lemma TokenCachedOnce(items: map<string, string>, id: string, r: Replies)
    ensures var e := TokenEffect(items, id, r);
      var key := Scoped(id, TOKEN_KEY);
      && (Cached(items, key).Some? ==> e == Effect(Success(items[key]), items, []))
      && (Cached(items, key).None? ==>
            e.calls == [GetToken(id)] &&
            e.result == r.getToken &&
            e.items == (if e.result.Success? then items[key := e.result.value] else items))
  {
  }

  /** Two calls for the same identity against the same store give the same token; the second makes no call and no write. */
  lemma TokenIdempotent(items: map<string, string>, id: string, r1: Replies, r2: Replies)
    requires TokenEffect(items, id, r1).result.Success?
    requires TokenEffect(items, id, r1).result.value != ""
    ensures var e1 := TokenEffect(items, id, r1);
      TokenEffect(e1.items, id, r2) == Effect(e1.result, e1.items, [])
  {
  }

  /**
   * getContext: the context cached under `${id}-context`, when present and its
   * signature expires strictly after now; absent otherwise. The expiry is read
   * from the parsed entry before Context.fromJSON runs, so only an unexpired
   * entry is ever restored; parsing and restoring may each raise.
   */
  function ContextFor(items: map<string, string>, id: string, now: int, env: Env): (r: Result<Option<Context>>)
  {
    match Cached(items, Scoped(id, CONTEXT_KEY))
    case None => Success(None)
    case Some(json) =>
      match env.sigExpiry(json)
      case Failure(err) => Failure(err)
      case Success(expiry) =>
        if expiry.Some? && expiry.value > now then
          match env.fromJSON(json)
          case Failure(err) => Failure(err)
          case Success(c) => Success(Some(c))
        else Success(None)
  }

  /** The entry under `key` is present, parses, and carries a signature that expires strictly after now. */
  predicate Unexpired(items: map<string, string>, key: string, now: int, env: Env)
  {
    && Cached(items, key).Some?
    && env.sigExpiry(items[key]).Success?
    && env.sigExpiry(items[key]).value.Some?
    && env.sigExpiry(items[key]).value.value > now
  }

  /**
   * A context is returned exactly when the scoped entry is unexpired and restores;
   * an error is raised exactly when parsing fails or an unexpired entry fails to
   * restore; an absent, falsy or expired entry gives no context.
   */
  lemma ContextReuseRule(items: map<string, string>, id: string, now: int, env: Env)
    ensures var key := Scoped(id, CONTEXT_KEY);
      var r := ContextFor(items, id, now, env);
      && (r.Success? && r.value.Some? <==> Unexpired(items, key, now, env) && env.fromJSON(items[key]).Success?)
      && (r.Success? && r.value.Some? ==> r.value.value == env.fromJSON(items[key]).value)
      && (r.Failure? <==>
            Cached(items, key).Some? &&
            (env.sigExpiry(items[key]).Failure? || (Unexpired(items, key, now, env) && env.fromJSON(items[key]).Failure?)))
      && (r == Success(None) <==>
            Cached(items, key).None? || (env.sigExpiry(items[key]).Success? && !Unexpired(items, key, now, env)))
  {
  }

  /**
   * An entry that parses but has expired is never handed to Context.fromJSON: the
   * outcome does not depend on whether restoring it would raise.
   */
  lemma ExpiredEntryNeverRestored(items: map<string, string>, id: string, now: int, env: Env, fromJSON: string -> Result<Context>)
    requires var key := Scoped(id, CONTEXT_KEY);
      Cached(items, key).Some? && env.sigExpiry(items[key]).Success? && !Unexpired(items, key, now, env)
    ensures ContextFor(items, id, now, env) == Success(None)
    ensures ContextFor(items, id, now, env.(fromJSON := fromJSON)) == Success(None)
  {
  }

  /** The same store read later can only lose a reusable context to expiry, never gain one. */
  lemma ContextExpiryMonotone(items: map<string, string>, id: string, t1: int, t2: int, env: Env)
    requires t1 <= t2
    requires ContextFor(items, id, t2, env).Success? && ContextFor(items, id, t2, env).value.Some?
    ensures ContextFor(items, id, t1, env) == ContextFor(items, id, t2, env)
  {
  }

  /**
   * getUserThread: restore the identity's cached thread id; otherwise create a
   * random one, cache it, and only then create its database and collection.
   */
  function ThreadEffect(items: map<string, string>, id: string, db: Option<Client>, r: Replies): Effect<ThreadId>
  {
    var key := Scoped(id, USER_THREAD_ID);
    match Cached(items, key)
    case Some(s) =>
      Effect(if r.threadFromString.Fail? then Failure(r.threadFromString.error) else Success(s), items, [])
    case None =>
      var t := r.threadFromRandom;
      var stored := items[key := t];
      if db.None? then Effect(Failure(UNDEFINED_CLIENT), stored, [])
      else if r.newDB.Fail? then Effect(Failure(r.newDB.error), stored, [NewDB(t)])
      else if r.newCollection.Fail? then Effect(Failure(r.newCollection.error), stored, [NewDB(t), NewCollection(t, COLLECTION)])
      else Effect(Success(t), stored, [NewDB(t), NewCollection(t, COLLECTION)])
  }

  /**
   * newDB and newCollection are called only on a miss, and a miss caches the new
   * id before them: the entry is written even when either call raises.
   */
  lemma ThreadCreatedOnMissOnly(items: map<string, string>, id: string, db: Option<Client>, r: Replies)
    ensures var e := ThreadEffect(items, id, db, r);
      var key := Scoped(id, USER_THREAD_ID);
      && (Cached(items, key).Some? ==>
            (e.items == items && e.calls == [] && (e.result.Success? ==> e.result.value == items[key])))
      && (Cached(items, key).None? ==>
            e.items == items[key := r.threadFromRandom] &&
            e.calls <= [NewDB(r.threadFromRandom), NewCollection(r.threadFromRandom, COLLECTION)] &&
            (e.result.Success? <==> db.Some? && r.newDB == Pass && r.newCollection == Pass) &&
            (e.result.Success? ==> e.result.value == r.threadFromRandom && |e.calls| == 2))
  {
  }

  /** Repeated calls for the same identity return the same thread id, and the second call creates nothing. */
  lemma ThreadIdempotent(items: map<string, string>, id: string, db1: Option<Client>, db2: Option<Client>, r1: Replies, r2: Replies)
    requires ThreadEffect(items, id, db1, r1).result.Success?
    requires ThreadEffect(items, id, db1, r1).result.value != ""
    requires r2.threadFromString == Pass
    ensures var e1 := ThreadEffect(items, id, db1, r1);
      ThreadEffect(e1.items, id, db2, r2) == Effect(e1.result, e1.items, [])
  {
  }

  /**
   * The cached id survives a failed creation: the next call returns it without
   * creating the database, so a thread whose creation failed stays uncreated.
   */
  lemma DanglingThreadReused(items: map<string, string>, id: string, db: Option<Client>, r1: Replies, r2: Replies)
    requires Cached(items, Scoped(id, USER_THREAD_ID)).None?
    requires r1.threadFromRandom != ""
    requires ThreadEffect(items, id, db, r1).result.Failure?
    requires r2.threadFromString == Pass
    ensures var e1 := ThreadEffect(items, id, db, r1);
      ThreadEffect(e1.items, id, db, r2) == Effect(Success(r1.threadFromRandom), e1.items, [])
  {
  }

  // ---------------------------------------------------------------------------
  // The step bodies (the cases of runStep); a Failure is an error the body raised
  // ---------------------------------------------------------------------------

  /** Step 0: obtain the identity, then reuse the cached context or create one with credentials and a token. */
  function PrepareIdentityEffect(s: State, items: map<string, string>, r: Replies, env: Env): Effect<State>
    requires s.Valid()
  {
    var ident := IdentityEffect(items, r);
    if ident.result.Failure? then Effect(Failure(ident.result.error), ident.items, ident.calls)
    else
      var id := ident.result.value;
      var existing := ContextFor(ident.items, id, r.now, env);
      if existing.Failure? then Effect(Failure(existing.error), ident.items, ident.calls)
      else if existing.value.Some? then
        var c := existing.value.value;
        Effect(Success(s.(steps := Finish(s.steps, 0, SUCCESS, Some(USING_EXISTING)),
                          identity := Some(id), ctx := Some(c), db := Some(Client(c)))),
               ident.items, ident.calls)
      else
        var tok := TokenEffect(ident.items, id, r);
        if tok.result.Failure? then Effect(Failure(tok.result.error), tok.items, ident.calls + tok.calls)
        else
          var c := WithUserKey(NEW_CONTEXT, env.credentials).(token := Some(tok.result.value));
          Effect(Success(s.(steps := Finish(s.steps, 0, SUCCESS, Some(CREATED_NEW)),
                            identity := Some(id), ctx := Some(c), db := Some(Client(c)))),
                 tok.items[CONTEXT_KEY := env.encode(c)], ident.calls + tok.calls)
  }

  /** Step 1: obtain the identity's thread and scope the shared context to it. */
  function SetupThreadEffect(s: State, items: map<string, string>, r: Replies): Effect<State>
    requires s.Valid()
  {
    var th := ThreadEffect(items, Template(s.identity), s.db, r);
    if th.result.Failure? then Effect(Failure(th.result.error), th.items, th.calls)
    else if s.db.None? then Effect(Failure(UNDEFINED_CLIENT), th.items, th.calls)
    else
      var c := s.db.value.context.(thread := Some(th.result.value));
      Effect(Success(s.(steps := Finish(s.steps, 1, SUCCESS, Some(THREAD_LINKED)),
                        threadId := Some(th.result.value), ctx := Some(c), db := Some(Client(c)))),
             th.items, th.calls)
  }

  /** Step 2: create one instance and remember the first returned id. */
  function AddInstanceEffect(s: State, items: map<string, string>, r: Replies): Effect<State>
    requires s.Valid()
  {
    if s.db.None? then Effect(Failure(UNDEFINED_CLIENT), items, [])
    else
      var calls := [Create(s.threadId, COLLECTION)];
      match r.create
      case Failure(err) => Effect(Failure(err), items, calls)
      case Success(ids) =>
        var first := if |ids| > 0 then Some(ids[0]) else None;
        Effect(Success(s.(steps := Finish(s.steps, 2, SUCCESS, Some("New instance added: " + Template(first))),
                          entityId := first)),
               items, calls)
  }

  const FOUND_SUFFIX := " existing instances found"

  /** The message of step 3: the count in decimal, then the suffix; the count can be read back from it. */
  function FoundMessage(count: nat): (m: string)
    ensures |m| > |FOUND_SUFFIX| && m[|m| - |FOUND_SUFFIX|..] == FOUND_SUFFIX
    ensures IsDigits(m[..|m| - |FOUND_SUFFIX|]) && ParseDecimal(m[..|m| - |FOUND_SUFFIX|]) == count
  {
    var digits := NatToString(count);
    ParseNatToString(count);
    assert (digits + FOUND_SUFFIX)[..|digits|] == digits;
    digits + FOUND_SUFFIX
  }

  /** Step 3: find every `firstName == 'Buzz'` instance, delete them all, and check the remembered id was among them. */
  function QueryCollectionEffect(s: State, items: map<string, string>, r: Replies): Effect<State>
    requires s.Valid()
  {
    if s.db.None? then Effect(Failure(UNDEFINED_CLIENT), items, [])
    else
      var find := Find(s.threadId, COLLECTION, "firstName", "Buzz");
      match r.find
      case Failure(err) => Effect(Failure(err), items, [find])
      case Success(ids) =>
        var calls := [find, Delete(s.threadId, COLLECTION, ids)];
        if r.delete.Fail? then Effect(Failure(r.delete.error), items, calls)
        else
          var found := s.entityId.Some? && s.entityId.value in ids;
          Effect(Success(s.(steps := Finish(s.steps, 3, if found then SUCCESS else FAILED, Some(FoundMessage(|ids|))))),
                 items, calls)
  }

  /** Step 4, after the bucket key is known: push the page and publish the bucket's URL. */
  function PushToBucket(s: State, items: map<string, string>, r: Replies, before: seq<Call>, key: string): Effect<State>
    requires s.Valid()
  {
    var calls := before + [PushPath(key, INDEX_PATH)];
    if r.pushPath.Fail? then Effect(Failure(r.pushPath.error), items, calls)
    else Effect(Success(s.(steps := Finish(s.steps, 4, SUCCESS, s.steps[4].message), bucketUrl := Some(BucketUrl(key)))),
                items, calls)
  }

  /** Step 4: reuse the bucket named "files" or create it, then push the page into it. */
  function PushWebpageEffect(s: State, items: map<string, string>, r: Replies): Effect<State>
    requires s.Valid()
  {
    match r.list
    case Failure(err) => Effect(Failure(err), items, [ListBuckets])
    case Success(roots) =>
      match FindBucket(roots, BUCKET_NAME)
      case Some(b) => PushToBucket(s, items, r, [ListBuckets], b.key)
      case None =>
        match r.init
        case Failure(err) => Effect(Failure(err), items, [ListBuckets, InitBucket(BUCKET_NAME)])
        case Success(k) => PushToBucket(s, items, r, [ListBuckets, InitBucket(BUCKET_NAME)], k)
  }

  /** The body of step n. */
  function StepBody(n: int, s: State, items: map<string, string>, r: Replies, env: Env): Effect<State>
    requires s.Valid() && 0 <= n < STEP_COUNT
  {
    if n == 0 then PrepareIdentityEffect(s, items, r, env)
    else if n == 1 then SetupThreadEffect(s, items, r)
    else if n == 2 then AddInstanceEffect(s, items, r)
    else if n == 3 then QueryCollectionEffect(s, items, r)
    else PushWebpageEffect(s, items, r)
  }

  /**
   * runStep(n): run the body; an error it raises is caught and recorded on step n
   * alone. A number with no step dereferences an undefined entry: the resulting
   * TypeError escapes the catch and nothing in the state changes.
   */
  function StepRun(n: int, s: State, items: map<string, string>, r: Replies, env: Env): Run
    requires s.Valid()
  {
    if !(0 <= n < |s.steps|) then Run(s, items, [])
    else
      var b := StepBody(n, s, items, r, env);
      match b.result
      case Failure(err) => Run(s.(steps := Finish(s.steps, n, FAILED, Some(err))), b.items, b.calls)
      case Success(next) => Run(next, b.items, b.calls)
  }

  // ---------------------------------------------------------------------------
  // What a step run promises
  // ---------------------------------------------------------------------------

  /** t is s with only step n changed, to a terminal status. */
  predicate OnlyStepChanged(n: int, s: State, t: State)
    requires s.Valid() && 0 <= n < STEP_COUNT
  {
    && t.Valid()
    && t.step == s.step
    && t.errorMessage == s.errorMessage
    && (forall j :: 0 <= j < STEP_COUNT && j != n ==> t.steps[j] == s.steps[j])
    && (t.steps[n].status == SUCCESS || t.steps[n].status == FAILED)
  }

  /** Recording a known status on one step keeps the state valid. */
  lemma FinishValid(s: State, n: nat, status: int, message: Option<string>)
    requires s.Valid() && n < STEP_COUNT && (status == SUCCESS || status == FAILED)
    ensures OnlyStepChanged(n, s, s.(steps := Finish(s.steps, n, status, message)))
  {
  }

  /** Each step body, when it completes, changes only its own step among the steps. */
  lemma BodyChangesOnlyItsStep(n: int, s: State, items: map<string, string>, r: Replies, env: Env)
    requires s.Valid() && 0 <= n < STEP_COUNT
    ensures var b := StepBody(n, s, items, r, env);
      b.result.Success? ==> OnlyStepChanged(n, s, b.result.value)
  {
    var b := StepBody(n, s, items, r, env);
    if b.result.Success? {
      if n == 0 {
        FinishValid(s, 0, SUCCESS, Some(USING_EXISTING));
        FinishValid(s, 0, SUCCESS, Some(CREATED_NEW));
      } else if n == 1 {
        FinishValid(s, 1, SUCCESS, Some(THREAD_LINKED));
      } else if n == 2 {
        var ids := r.create.value;
        var first := if |ids| > 0 then Some(ids[0]) else None;
        FinishValid(s, 2, SUCCESS, Some("New instance added: " + Template(first)));
      } else if n == 3 {
        var ids := r.find.value;
        FinishValid(s, 3, SUCCESS, Some(FoundMessage(|ids|)));
        FinishValid(s, 3, FAILED, Some(FoundMessage(|ids|)));
      } else {
        FinishValid(s, 4, SUCCESS, s.steps[4].message);
      }
    }
  }

  /**
   * A step run touches step n only: it ends Success or Failed, every other step
   * is unchanged, the index and the diagnostic are unchanged, and the state stays
   * valid; a run of the current step keeps the workflow orderly.
   */
  lemma StepIsolation(n: int, s: State, items: map<string, string>, r: Replies, env: Env)
    requires s.Valid()
    ensures var run := StepRun(n, s, items, r, env);
      && (0 <= n < STEP_COUNT ==> OnlyStepChanged(n, s, run.state))
      && (!(0 <= n < STEP_COUNT) ==> run == Run(s, items, []))
      && run.state.Valid()
      && (s.Orderly() && n == s.step ==> run.state.Orderly())
  {
    if 0 <= n < STEP_COUNT {
      var b := StepBody(n, s, items, r, env);
      BodyChangesOnlyItsStep(n, s, items, r, env);
      if b.result.Failure? {
        FinishValid(s, n, FAILED, Some(b.result.error));
      }
      var t := StepRun(n, s, items, r, env).state;
      assert OnlyStepChanged(n, s, t);
    }
  }

  /** When the body raises, the only change to the state is step n: status Failed, the error's message as its message. */
  lemma FailureIsolated(n: int, s: State, items: map<string, string>, r: Replies, env: Env)
    requires s.Valid() && 0 <= n < STEP_COUNT
    requires StepBody(n, s, items, r, env).result.Failure?
    ensures var b := StepBody(n, s, items, r, env);
      StepRun(n, s, items, r, env).state ==
        s.(steps := s.steps[n := s.steps[n].(status := FAILED, message := Some(b.result.error))])
  {
  }

  /**
   * Step 1 succeeds exactly when there is a client and the identity's thread is
   * obtained. It then records that thread and scopes the shared context to it,
   * keeping the context's credentials and token; the client works on that context.
   */
  lemma ThreadLinked(s: State, items: map<string, string>, r: Replies, env: Env)
    requires s.Valid()
    ensures var th := ThreadEffect(items, Template(s.identity), s.db, r);
      var t := StepRun(1, s, items, r, env).state;
      && |t.steps| == STEP_COUNT
      && (t.steps[1].status == SUCCESS <==> s.db.Some? && th.result.Success?)
      && (t.steps[1].status == SUCCESS ==>
            && t.threadId == Some(th.result.value)
            && t.ctx.Some? && t.ctx.value.thread == t.threadId
            && t.ctx.value.userKey == s.ctx.value.userKey && t.ctx.value.token == s.ctx.value.token
            && t.db == Some(Client(t.ctx.value))
            && t.steps[1].message == Some(THREAD_LINKED)
            && t.identity == s.identity && t.entityId == s.entityId && t.bucketUrl == s.bucketUrl)
      && (t.steps[1].status == FAILED ==> t.threadId == s.threadId && t.ctx == s.ctx && t.db == s.db)
  {
  }

  /**
   * Step 2 succeeds exactly when there is a client and the create call returns.
   * It remembers the first returned id and names it in the message, or records
   * nothing and says "undefined" when no id came back.
   */
  lemma InstanceRecorded(s: State, items: map<string, string>, r: Replies, env: Env)
    requires s.Valid()
    ensures var t := StepRun(2, s, items, r, env).state;
      && |t.steps| == STEP_COUNT
      && (t.steps[2].status == SUCCESS <==> s.db.Some? && r.create.Success?)
      && (t.steps[2].status == SUCCESS && |r.create.value| > 0 ==>
            t.entityId == Some(r.create.value[0]) &&
            t.steps[2].message == Some("New instance added: " + r.create.value[0]))
      && (t.steps[2].status == SUCCESS && |r.create.value| == 0 ==>
            t.entityId == None && t.steps[2].message == Some("New instance added: undefined"))
      && (t.steps[2].status == FAILED ==> t.entityId == s.entityId)
  {
    if s.db.Some? && r.create.Success? && |r.create.value| == 0 {
      assert "New instance added: " + Template(None) == "New instance added: undefined";
    }
  }

  /**
   * Step 3 deletes exactly the ids the query returned, succeeds exactly when the
   * remembered id is among them, and reports how many there were.
   */
  lemma QueryVerdict(s: State, items: map<string, string>, r: Replies, env: Env, ids: seq<string>)
    requires s.Valid() && s.db.Some?
    requires r.find == Success(ids) && r.delete == Pass
    ensures var run := StepRun(3, s, items, r, env);
      && run.calls == [Find(s.threadId, COLLECTION, "firstName", "Buzz"), Delete(s.threadId, COLLECTION, ids)]
      && (run.state.steps[3].status == SUCCESS <==> s.entityId.Some? && s.entityId.value in ids)
      && (run.state.steps[3].status == FAILED <==> !(s.entityId.Some? && s.entityId.value in ids))
      && run.state.steps[3].message == Some(FoundMessage(|ids|))
      && run.items == items
  {
  }

  /**
   * Step 4 reuses the key of the first listed bucket named "files" and creates
   * one only when none is listed; on success the URL embeds the key it used.
   */
  lemma BucketReuse(s: State, items: map<string, string>, r: Replies, env: Env, roots: seq<Bucket>)
    requires s.Valid() && r.list == Success(roots) && r.pushPath == Pass
    ensures var run := StepRun(4, s, items, r, env);
      var existing := FindBucket(roots, BUCKET_NAME);
      && (existing.Some? ==>
            run.calls == [ListBuckets, PushPath(existing.value.key, INDEX_PATH)] &&
            run.state.bucketUrl == Some(BucketUrl(existing.value.key)) &&
            run.state.steps[4].status == SUCCESS)
      && (existing.None? ==> InitBucket(BUCKET_NAME) in run.calls)
      && (existing.None? && r.init.Success? ==>
            run.calls == [ListBuckets, InitBucket(BUCKET_NAME), PushPath(r.init.value, INDEX_PATH)] &&
            run.state.bucketUrl == Some(BucketUrl(r.init.value)) &&
            run.state.steps[4].status == SUCCESS)
      && run.items == items
  {
  }

  /**
   * Step 0 never writes a `${id}-context` entry, for any identity: the new
   * context goes under the bare key CONTEXT_KEY, which the context lookup never
   * reads. So what getContext sees is the same before and after step 0.
   */
  lemma {:induction false} PrepareIdentityKeepsScopedContexts(s: State, items: map<string, string>, r: Replies, env: Env, other: string)
    requires s.Valid()
    ensures var run := StepRun(0, s, items, r, env);
      Cached(run.items, Scoped(other, CONTEXT_KEY)) == Cached(items, Scoped(other, CONTEXT_KEY))
  {
    var key := Scoped(other, CONTEXT_KEY);
    var ident := IdentityEffect(items, r);
    KeysDisjoint(other, other);
    assert ident.items == items || ident.items == items[IDENTITY_KEY := ident.result.value];
    assert Cached(ident.items, key) == Cached(items, key);
    var b := PrepareIdentityEffect(s, items, r, env);
    if ident.result.Failure? {
      assert b.items == ident.items;
    } else if ContextFor(ident.items, ident.result.value, r.now, env).Failure? {
      assert b.items == ident.items;
    } else if ContextFor(ident.items, ident.result.value, r.now, env).value.Some? {
      assert b.items == ident.items;
    } else {
      var id := ident.result.value;
      KeysDisjoint(id, other);
      var tok := TokenEffect(ident.items, id, r);
      assert tok.items == ident.items || tok.items == ident.items[Scoped(id, TOKEN_KEY) := tok.result.value];
      assert Cached(tok.items, key) == Cached(items, key);
      assert b.items == tok.items || b.items == tok.items[CONTEXT_KEY := env.encode(b.result.value.ctx.value)];
    }
    assert StepRun(0, s, items, r, env).items == b.items;
  }

  /**
   * A fresh install: step 0 on an empty store generates an identity, requests a
   * token, writes identity, token and bare context entries, and reports
   * "Created new Identity".
   */
  lemma FreshInstallStep0(r: Replies, env: Env, id: string, token: string)
    requires r.identityFromRandom == Success(id) && r.getToken == Success(token)
    ensures var run := StepRun(0, INITIAL_STATE, map[], r, env);
      var c := WithUserKey(NEW_CONTEXT, env.credentials).(token := Some(token));
      && run.state.steps[0].status == SUCCESS
      && run.state.steps[0].message == Some(CREATED_NEW)
      && run.state.identity == Some(id)
      && run.state.ctx == Some(c)
      && run.calls == [IdentityFromRandom, GetToken(id)]
      && run.items == map[IDENTITY_KEY := id, Scoped(id, TOKEN_KEY) := token, CONTEXT_KEY := env.encode(c)]
      && run.state.Orderly()
  {
    var empty: map<string, string> := map[];
    InitialStateOrderly();
    KeysDisjoint(id, id);
    var ident := IdentityEffect(empty, r);
    assert ident == Effect(Success(id), empty[IDENTITY_KEY := id], [IdentityFromRandom]);
    assert Cached(ident.items, Scoped(id, CONTEXT_KEY)).None?;
    assert ContextFor(ident.items, id, r.now, env) == Success(None);
    assert Cached(ident.items, Scoped(id, TOKEN_KEY)).None?;
    var tok := TokenEffect(ident.items, id, r);
    assert tok == Effect(Success(token), ident.items[Scoped(id, TOKEN_KEY) := token], [GetToken(id)]);
    StepIsolation(0, INITIAL_STATE, empty, r, env);
  }

  /**
   * After a restart, later, on the store a successful step 0 left behind, step 0 again
   * restores the same identity and token without generating or requesting
   * anything, and (the context having gone under the bare key) again reports
   * "Created new Identity" and rewrites the bare context entry. The context is
   * signed anew on each run, so only its credentials and token are promised equal,
   * and every entry except the bare context entry is left as the first run wrote it.
   */
  lemma {:induction false} RestartReusesIdentityAndToken(items: map<string, string>, r1: Replies, r2: Replies, env: Env)
    requires StepBody(0, INITIAL_STATE, items, r1, env).result.Success?
    requires StepRun(0, INITIAL_STATE, items, r1, env).state.steps[0].message == Some(CREATED_NEW)
    requires StepRun(0, INITIAL_STATE, items, r1, env).state.identity.value != ""
    requires StepRun(0, INITIAL_STATE, items, r1, env).state.ctx.value.token.value != ""
    requires r2.identityFromString == Pass
    requires r1.now <= r2.now
    ensures var first := StepRun(0, INITIAL_STATE, items, r1, env);
      var second := StepRun(0, INITIAL_STATE, first.items, r2, env);
      && second.calls == []
      && second.state.(ctx := first.state.ctx, db := first.state.db) == first.state
      && second.state.steps[0].message == Some(CREATED_NEW)
      && second.state.ctx.Some? && first.state.ctx.Some?
      && second.state.ctx.value.userKey == first.state.ctx.value.userKey
      && second.state.ctx.value.token == first.state.ctx.value.token
      && CONTEXT_KEY in second.items
      && second.items - {CONTEXT_KEY} == first.items - {CONTEXT_KEY}
  {
    InitialStateOrderly();
    var first := StepRun(0, INITIAL_STATE, items, r1, env);
    var ident := IdentityEffect(items, r1);
    assert ident.result.Success?;
    var id := ident.result.value;
    assert first.state.identity == Some(id);
    KeysDisjoint(id, id);
    assert ContextFor(ident.items, id, r1.now, env) == Success(None);
    var tok := TokenEffect(ident.items, id, r1);
    assert tok.result.Success?;
    var token := tok.result.value;
    var c := WithUserKey(NEW_CONTEXT, env.credentials).(token := Some(token));
    assert first.state.ctx == Some(c);
    assert first.items == tok.items[CONTEXT_KEY := env.encode(c)];
    // the second run hits the identity entry
    assert Cached(tok.items, IDENTITY_KEY) == Some(id);
    assert Cached(first.items, IDENTITY_KEY) == Some(id);
    var ident2 := IdentityEffect(first.items, r2);
    assert ident2 == Effect(Success(id), first.items, []);
    // the scoped context entry is untouched, so later it is still not reusable
    PrepareIdentityKeepsScopedContexts(INITIAL_STATE, items, r1, env, id);
    assert Cached(first.items, Scoped(id, CONTEXT_KEY)) == Cached(ident.items, Scoped(id, CONTEXT_KEY));
    assert ContextFor(first.items, id, r2.now, env) == ContextFor(ident.items, id, r2.now, env);
    if ContextFor(ident.items, id, r2.now, env) != Success(None) {
      ContextReuseRule(ident.items, id, r2.now, env);
      ContextExpiryMonotone(ident.items, id, r1.now, r2.now, env);
      assert false;
    }
    // the token entry is a hit
    assert Cached(first.items, Scoped(id, TOKEN_KEY)) == Some(token);
    assert TokenEffect(first.items, id, r2) == Effect(Success(token), first.items, []);
    assert first.items[CONTEXT_KEY := env.encode(c)] == first.items;
  }
}
