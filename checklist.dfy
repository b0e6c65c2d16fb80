/**
 * The CheckList component: the step list and index it updates in place, the
 * AsyncStorage it reads and writes, and the driver that advances through the
 * steps. Each method is tied by its ensures to a function of Workflow or Steps;
 * RenderRow states its new state directly.
 */
module CheckLists {
  import opened Wrappers
  import opened Text
  import opened Steps
  import opened Textile
  import opened Storage
  import opened Keys
  import opened Workflow

  /** What a row shows: key and name, the status column, the icon and its colour. */
  datatype Row = Row(key: string, name: string, status: string, icon: string, color: string)

  class CheckList {
    const storage: AsyncStorage
    const env: Env
    var state: State
    /** Every call made into the textile libraries, in order. */
    ghost var calls: seq<Call>

    ghost predicate Valid()
      reads this
    {
      state.Valid()
    }

    /** A new component over the store left by earlier runs: all steps pending, index 0. */
    constructor (storage: AsyncStorage, env: Env)
      ensures this.storage == storage && this.env == env
      ensures state == INITIAL_STATE && calls == []
      ensures Valid() && state.Orderly()
    {
      this.storage := storage;
      this.env := env;
      state := INITIAL_STATE;
      calls := [];
      InitialStateOrderly();
    }

    /** incrementStatus: one more on the step's status, unless it is already at the cap. */
    method IncrementStatus(index: int)
      requires Valid() && 0 <= index < |state.steps|
      modifies this`state
      ensures Valid()
      ensures state == old(state).(steps := old(state.steps)[index := old(state.steps[index]).(status := Bump(old(state.steps[index].status)))])
    {
      var data := state.steps[index];
      if data.status >= MAX_STEPS {
        return;
      }
      state := state.(steps := state.steps[index := data.(status := data.status + 1)]);
      assert forall i :: 0 <= i < |state.steps| && i != index ==> state.steps[i] == old(state.steps[i]);
    }

    /** generateIdentity. */
    method GenerateIdentity(r: Replies) returns (res: Result<string>)
      modifies storage, this`calls
      ensures var e := IdentityEffect(old(storage.items), r);
        res == e.result && storage.items == e.items && calls == old(calls) + e.calls
    {
      var idStr := storage.GetItem(IDENTITY_KEY);
      if idStr.Some? && idStr.value != "" {
        match r.identityFromString
        case Fail(err) => res := Failure(err);
        case Pass => res := Success(idStr.value);
      } else {
        calls := calls + [IdentityFromRandom];
        match r.identityFromRandom
        case Failure(err) =>
          res := Failure(err);
        case Success(s) =>
          storage.SetItem(IDENTITY_KEY, s);
          res := Success(s);
      }
    }

    /**
     * getUserToken: the token for the identity, attached to the client's context
     * on both paths (a hit attaches the cached one; the hub attaches a new one).
     */
    method GetUserToken(id: string, context: Context, r: Replies) returns (res: Result<string>, attached: Context)
      modifies storage, this`calls
      ensures var e := TokenEffect(old(storage.items), id, r);
        res == e.result && storage.items == e.items && calls == old(calls) + e.calls
      ensures attached == if res.Success? then context.(token := Some(res.value)) else context
    {
      var persistenceKey := Scoped(id, TOKEN_KEY);
      var token := storage.GetItem(persistenceKey);
      attached := context;
      if token.Some? && token.value != "" {
        attached := context.(token := Some(token.value));
        return Success(token.value), attached;
      }
      calls := calls + [GetToken(id)];
      match r.getToken
      case Failure(err) =>
        res := Failure(err);
      case Success(t) =>
        attached := context.(token := Some(t));
        storage.SetItem(persistenceKey, t);
        res := Success(t);
    }

    /** getContext: reads the store and never writes it; an expired entry is never restored. */
    method GetContext(id: string, now: int) returns (res: Result<Option<Context>>)
      ensures res == ContextFor(storage.items, id, now, env)
      ensures res.Success? && res.value.Some? ==> Unexpired(storage.items, Scoped(id, CONTEXT_KEY), now, env)
    {
      var contextStr := storage.GetItem(Scoped(id, CONTEXT_KEY));
      res := Success(None);
      if contextStr.Some? && contextStr.value != "" {
        match env.sigExpiry(contextStr.value)
        case Failure(err) =>
          res := Failure(err);
        case Success(expiry) =>
          if expiry.Some? && expiry.value > now {
            match env.fromJSON(contextStr.value)
            case Failure(err) =>
              res := Failure(err);
            case Success(ctx) =>
              res := Success(Some(ctx));
          }
      }
    }

    /** getUserThread. */
    method GetUserThread(id: string, db: Option<Client>, r: Replies) returns (res: Result<ThreadId>)
      modifies storage, this`calls
      ensures var e := ThreadEffect(old(storage.items), id, db, r);
        res == e.result && storage.items == e.items && calls == old(calls) + e.calls
    {
      var persistenceKey := Scoped(id, USER_THREAD_ID);
      var idStr := storage.GetItem(persistenceKey);
      if idStr.Some? && idStr.value != "" {
        res := if r.threadFromString.Fail? then Failure(r.threadFromString.error) else Success(idStr.value);
        return;
      }
      assert Cached(old(storage.items), persistenceKey).None?;
      var tid := r.threadFromRandom;
      storage.SetItem(persistenceKey, tid);
      if db.None? {
        return Failure(UNDEFINED_CLIENT);
      }
      calls := calls + [NewDB(tid)];
      if r.newDB.Fail? {
        return Failure(r.newDB.error);
      }
      calls := calls + [NewCollection(tid, COLLECTION)];
      assert calls == old(calls) + [NewDB(tid), NewCollection(tid, COLLECTION)];
      if r.newCollection.Fail? {
        return Failure(r.newCollection.error);
      }
      res := Success(tid);
    }

    /** Step 0: the state the body would set, or the error it raised. */
    method PrepareIdentity(r: Replies) returns (res: Result<State>)
      requires Valid()
      modifies storage, this`calls
      ensures var e := PrepareIdentityEffect(state, old(storage.items), r, env);
        res == e.result && storage.items == e.items && calls == old(calls) + e.calls
    {
      ghost var items0 := storage.items;
      var id := GenerateIdentity(r);
      if id.Failure? {
        return Failure(id.error);
      }
      var identity := id.value;
      var existingCtx := GetContext(identity, r.now);
      if existingCtx.Failure? {
        return Failure(existingCtx.error);
      }
      if existingCtx.value.Some? {
        var ctx := existingCtx.value.value;
        res := Success(state.(steps := Finish(state.steps, 0, SUCCESS, Some(USING_EXISTING)),
                              identity := Some(identity), ctx := Some(ctx), db := Some(Client(ctx))));
      } else {
        var ctx := WithUserKey(NEW_CONTEXT, env.credentials);
        var token, attached := GetUserToken(identity, ctx, r);
        if token.Failure? {
          return Failure(token.error);
        }
        storage.SetItem(CONTEXT_KEY, env.encode(attached));
        res := Success(state.(steps := Finish(state.steps, 0, SUCCESS, Some(CREATED_NEW)),
                              identity := Some(identity), ctx := Some(attached), db := Some(Client(attached))));
      }
    }

    /** Step 1. */
    method SetupThreadDB(r: Replies) returns (res: Result<State>)
      requires Valid()
      modifies storage, this`calls
      ensures var e := SetupThreadEffect(state, old(storage.items), r);
        res == e.result && storage.items == e.items && calls == old(calls) + e.calls
    {
      var tid := GetUserThread(Template(state.identity), state.db, r);
      if tid.Failure? {
        return Failure(tid.error);
      }
      if state.db.None? {
        return Failure(UNDEFINED_CLIENT);
      }
      var ctx := state.db.value.context.(thread := Some(tid.value));
      res := Success(state.(steps := Finish(state.steps, 1, SUCCESS, Some(THREAD_LINKED)),
                            threadId := Some(tid.value), ctx := Some(ctx), db := Some(Client(ctx))));
    }

    /** Step 2. */
    method AddInstance(r: Replies) returns (res: Result<State>)
      requires Valid()
      modifies this`calls
      ensures var e := AddInstanceEffect(state, storage.items, r);
        res == e.result && e.items == storage.items && calls == old(calls) + e.calls
    {
      if state.db.None? {
        return Failure(UNDEFINED_CLIENT);
      }
      calls := calls + [Create(state.threadId, COLLECTION)];
      match r.create
      case Failure(err) =>
        res := Failure(err);
      case Success(ids) =>
        var first := if |ids| > 0 then Some(ids[0]) else None;
        res := Success(state.(steps := Finish(state.steps, 2, SUCCESS, Some("New instance added: " + Template(first))),
                              entityId := first));
    }

    /** Step 3. */
    method QueryCollection(r: Replies) returns (res: Result<State>)
      requires Valid()
      modifies this`calls
      ensures var e := QueryCollectionEffect(state, storage.items, r);
        res == e.result && e.items == storage.items && calls == old(calls) + e.calls
    {
      if state.db.None? {
        return Failure(UNDEFINED_CLIENT);
      }
      calls := calls + [Find(state.threadId, COLLECTION, "firstName", "Buzz")];
      if r.find.Failure? {
        return Failure(r.find.error);
      }
      var ids := r.find.value;
      calls := calls + [Delete(state.threadId, COLLECTION, ids)];
      if r.delete.Fail? {
        return Failure(r.delete.error);
      }
      var found := state.entityId.Some? && state.entityId.value in ids;
      res := Success(state.(steps := Finish(state.steps, 3, if found then SUCCESS else FAILED, Some(FoundMessage(|ids|)))));
    }

    /** Step 4. */
    method PushWebpage(r: Replies) returns (res: Result<State>)
      requires Valid()
      modifies this`calls
      ensures var e := PushWebpageEffect(state, storage.items, r);
        res == e.result && e.items == storage.items && calls == old(calls) + e.calls
    {
      calls := calls + [ListBuckets];
      if r.list.Failure? {
        return Failure(r.list.error);
      }
      var existing := FindBucket(r.list.value, BUCKET_NAME);
      var targetKey := "";
      if existing.Some? {
        targetKey := existing.value.key;
      } else {
        calls := calls + [InitBucket(BUCKET_NAME)];
        if r.init.Failure? {
          return Failure(r.init.error);
        }
        targetKey := r.init.value;
      }
      calls := calls + [PushPath(targetKey, INDEX_PATH)];
      if r.pushPath.Fail? {
        return Failure(r.pushPath.error);
      }
      res := Success(state.(steps := Finish(state.steps, 4, SUCCESS, state.steps[4].message),
                            bucketUrl := Some(BucketUrl(targetKey))));
    }

    /**
     * runStep: run step n's body; an error it raises fails step n alone and keeps
     * its message. Only step n changes, and running the current step keeps the
     * workflow orderly.
     */
    method RunStep(n: int, r: Replies)
      requires Valid()
      modifies storage, this`state, this`calls
      ensures Valid()
      ensures var run := StepRun(n, old(state), old(storage.items), r, env);
        state == run.state && storage.items == run.items && calls == old(calls) + run.calls
      ensures 0 <= n < STEP_COUNT ==> OnlyStepChanged(n, old(state), state)
      ensures !(0 <= n < STEP_COUNT) ==> state == old(state) && storage.items == old(storage.items)
      ensures old(state.Orderly()) && n == old(state.step) ==> state.Orderly()
    {
      StepIsolation(n, state, storage.items, r, env);
      if !(0 <= n < |state.steps|) {
        return;
      }
      var outcome: Result<State>;
      if n == 0 {
        outcome := PrepareIdentity(r);
      } else if n == 1 {
        outcome := SetupThreadDB(r);
      } else if n == 2 {
        outcome := AddInstance(r);
      } else if n == 3 {
        outcome := QueryCollection(r);
      } else {
        outcome := PushWebpage(r);
      }
      match outcome
      case Failure(err) =>
        state := state.(steps := Finish(state.steps, n, FAILED, Some(err)));
      case Success(next) =>
        state := next;
    }

    /** showStatus: surface the step's diagnostic. */
    method ShowStatus(stepNumber: int)
      requires Valid() && 0 <= stepNumber < |state.steps|
      modifies this`state
      ensures Valid()
      ensures state == old(state).(errorMessage := Diagnostic(old(state.steps[stepNumber])))
    {
      var message := Diagnostic(state.steps[stepNumber]);
      state := state.(errorMessage := message);
    }

    /**
     * renderRow's driver logic for one row: a pending current step is launched
     * and marked running; a successful current step moves the index on by one;
     * anything else (a failed current step included) changes nothing. The row's
     * labels read the index as it was (the index update is deferred).
     */
    method RenderRow(index: int) returns (launched: bool, row: Row)
      requires Valid() && 0 <= index < |state.steps|
      modifies this`state
      ensures Valid()
      ensures launched <==> old(state.steps[index].status) == PENDING && old(state.step) == index
      ensures launched ==> state == old(state).(steps := old(state.steps)[index := old(state.steps[index]).(status := RUNNING)])
      ensures !launched && old(state.steps[index].status) == SUCCESS && old(state.step) == index ==>
        state == old(state).(step := old(state.step) + 1)
      ensures !launched && !(old(state.steps[index].status) == SUCCESS && old(state.step) == index) ==>
        state == old(state)
      ensures state.step == old(state.step) || state.step == old(state.step) + 1
      ensures old(state.Orderly()) ==> state.Orderly()
      ensures var item := state.steps[index];
        row == Row(item.key, item.name, StatusLabel(item.status, old(state.step) == index), StatusIcon(item.status), IconColor(item.status))
    {
      var item := state.steps[index];
      var current := state.step == index;
      launched := false;
      if item.status == PENDING && state.step == index {
        launched := true;
        IncrementStatus(index);
      } else if item.status == SUCCESS && state.step == index {
        state := state.(step := state.step + 1);
      }
      item := state.steps[index];
      row := Row(item.key, item.name, StatusLabel(item.status, current), StatusIcon(item.status), IconColor(item.status));
    }
  }
}
