# CheckList provisioning workflow, modelled in Dafny

This project models the core of the React Native hub app's `CheckList`
component (`react-native-hub-app/src/checklist.tsx`). The component runs a
five-step provisioning checklist against the Textile hub:

0. prepare an identity and an API token,
1. set up the user's thread database,
2. add an instance to the `Astronaut` collection,
3. query the collection and delete what it found,
4. push a web page into the user's `files` bucket.

Each step carries an integer status: 0 pending, 1 running, 2 success, 9 failed.
A current-step index moves forward only past a successful step. The cache
helpers use AsyncStorage (a string-to-string store) so that work is not repeated
after a restart. Each one restores a cached value, or creates it and caches it.
An error raised inside a step is caught. It fails that step alone.

Modules:

- `Wrappers` (`wrappers.dfy`): `Option`, `Result` and `Outcome`.
- `Text` (`text.dfy`): how numbers and optional values print inside template literals.
- `Steps` (`steps.dfy`): the `Step` record, the status codes, the capped increment, and the row labels.
- `Textile` (`textile.dfy`): the collaborators as values. This covers the session `Context`, the
  `Client`, buckets and the `Call`s made into the libraries. `Replies` holds what
  those calls answer during one step run.
- `Storage` (`storage.dfy`): the `AsyncStorage` class, whose `items` map the helpers read and write.
  The module also defines cache hits with the source's truthiness rule: an empty string counts as missing.
- `Keys` (`keys.dfy`): the cache keys and their disjointness.
- `Workflow` (`workflow.dfy`): the component's state, the helpers and the step bodies as
  functions of (state, store, replies). It also holds the lemmas stating what they promise.
- `CheckLists` (`checklist.dfy`): the `CheckList` class. Its methods update `state` and the store
  in place. Each is tied by its ensures to a function of `Workflow` or `Steps`:
  the helpers and step bodies to their `Workflow` functions, `IncrementStatus` to `Steps.Bump`,
  and `ShowStatus` to `Steps.Diagnostic`. `RenderRow` states its new state directly.

The textile libraries, the clock and randomness are inputs. A `Replies` value
gives each call's answer or raised error, and the clock reading `now`. An `Env`
value gives the developer credentials and the context's JSON encoding. It reads a
cached entry back in two stages, as the code does: `sigExpiry` parses the entry and
reads its signature expiry, and `fromJSON` restores the context. Either stage may
raise, and the second runs only on an entry that has not expired.
A ghost `calls` log on the component records identity generation and every call
that reaches the hub. This is how "no remote call on a cache hit" is stated.

Behaviour kept as the code has it:

- Step 0 writes a new context under the bare key `context` (line 224).
  `getContext` reads `<id>-context` (line 109). The two keys never coincide
  (`Keys.BareContextKeyNeverScoped`), and step 0 never writes any `<id>-context`
  entry (`Workflow.PrepareIdentityKeepsScopedContexts`). So after a restart step 0
  still reports "Created new Identity". It reuses the identity and the token and
  rewrites the same keys (`Workflow.RestartReusesIdentityAndToken`).
- The `default` arm of `runStep` is reached only by a number that has no entry
  in the five-step array. It assigns to a field of that undefined entry, so it
  throws. The `catch` arm throws again the same way, and the rejection escapes
  `runStep`. Status 9 is therefore never recorded, and the model leaves the state
  unchanged for such a number.
- Step 3 reports a missing instance with the same status 9 that a raised error
  produces. Its message is the count of instances found.
- A call on the client before step 0 has succeeded raises a TypeError, which fails
  the step. A key built from a missing identity reads `undefined-user_thread`.
  An empty create result records the message `New instance added: undefined`.
- The status column of a row reads the index as it was before that render's
  update, because the component's state update is deferred.

## Model

| member | source | states |
|---|---|---|
| `CheckLists.CheckList.constructor` | react-native-hub-app/src/checklist.tsx:53-63 | all five steps pending, index 0, empty log; the state is orderly |
| `CheckLists.CheckList.IncrementStatus` | react-native-hub-app/src/checklist.tsx:65-76 | the step's status becomes `Bump` of the old status; no other entry and no other field changes |
| `Steps.Bump` | react-native-hub-app/src/checklist.tsx:68-71 | one increment: the status rises by at most one, and it stays put exactly when it is already at or above MAX_STEPS (2) |
| `Steps.BumpTimes` | react-native-hub-app/src/checklist.tsx:65-76 | k increments in a row; what they give is stated by `BumpSaturates` |
| `Steps.BumpSaturates` | react-native-hub-app/src/checklist.tsx:65-76 | k increments give min(status + k, 2), and a status already at or above 2 never moves |
| `Steps.BumpKeepsKnown` | react-native-hub-app/src/checklist.tsx:65-76 | an increment keeps a status among 0, 1, 2, 9, never lowers it, and fixes exactly 2 and 9 |
| `Workflow.IdentityEffect` | react-native-hub-app/src/checklist.tsx:78-88 | restores a truthy `identity-7` entry (restoring may raise), otherwise generates an identity and caches its string form; see `IdentityCachedOnce` |
| `CheckLists.CheckList.GenerateIdentity` | react-native-hub-app/src/checklist.tsx:78-88 | result, store and calls are those of `IdentityEffect` on the old store |
| `Workflow.IdentityCachedOnce` | react-native-hub-app/src/checklist.tsx:78-88 | a hit on `identity-7` returns the cached form with no generation and no write; a miss generates once, returns exactly what generation gave, and writes it only when generation succeeded |
| `Workflow.IdentityIdempotent` | react-native-hub-app/src/checklist.tsx:78-88 | a second call on the resulting store returns the same identity, generates nothing and writes nothing |
| `Workflow.TokenEffect` | react-native-hub-app/src/checklist.tsx:90-106 | returns a truthy `<id>-token` entry, otherwise asks the hub and caches the token it got; see `TokenCachedOnce` |
| `CheckLists.CheckList.GetUserToken` | react-native-hub-app/src/checklist.tsx:90-106 | agrees with `TokenEffect`; on both paths the token is attached to the client's context |
| `Workflow.TokenCachedOnce` | react-native-hub-app/src/checklist.tsx:90-106 | a hit on `<id>-token` returns it with no call and no write; a miss asks the hub once and caches a token it got |
| `Workflow.TokenIdempotent` | react-native-hub-app/src/checklist.tsx:90-106 | a second call for the same identity gives the same token with no call and no write |
| `CheckLists.CheckList.GetContext` | react-native-hub-app/src/checklist.tsx:108-121 | agrees with `ContextFor`, has no frame to write to, and a returned context comes from an `<id>-context` entry whose signature expires after now |
| `Workflow.ContextFor` | react-native-hub-app/src/checklist.tsx:108-121 | reads `<id>-context`; parses it and reads the signature expiry from the raw entry; restores it with fromJSON only when it has not expired; a parse or restore error is raised |
| `Workflow.ExpiredEntryNeverRestored` | react-native-hub-app/src/checklist.tsx:113-118 | an entry that parses but has expired gives no context, whatever Context.fromJSON would do with it |
| `Workflow.ContextReuseRule` | react-native-hub-app/src/checklist.tsx:108-121 | a context is returned exactly when `<id>-context` is present, parses, its signature expires strictly after now, and it restores; an error is raised exactly when parsing fails or an unexpired entry fails to restore; otherwise no context |
| `Workflow.ContextExpiryMonotone` | react-native-hub-app/src/checklist.tsx:114-115 | a context reusable at a later time was reusable, and the same, at every earlier time |
| `Workflow.ThreadEffect` | react-native-hub-app/src/checklist.tsx:123-155 | restores a truthy `<id>-user_thread` entry, otherwise caches a random id and then creates its database and collection, raising at the first failure; see `ThreadCreatedOnMissOnly` |
| `CheckLists.CheckList.GetUserThread` | react-native-hub-app/src/checklist.tsx:123-155 | agrees with `ThreadEffect` |
| `Workflow.ThreadCreatedOnMissOnly` | react-native-hub-app/src/checklist.tsx:130-154 | a hit makes no call and no write; a miss writes `<id>-user_thread` even when newDB or newCollection raises, and then calls at most those two |
| `Workflow.ThreadIdempotent` | react-native-hub-app/src/checklist.tsx:130-139 | repeated calls for the same identity return the same thread id and the second creates nothing |
| `Workflow.DanglingThreadReused` | react-native-hub-app/src/checklist.tsx:140-147 | after a creation that failed, the cached id is returned later without creating its database |
| `Workflow.PrepareIdentityEffect` | react-native-hub-app/src/checklist.tsx:163-238 | step 0: identity, then a reusable context ("Using existing Identity") or a new one with credentials and token, written under the bare `context` key ("Created new Identity") |
| `Workflow.SetupThreadEffect` | react-native-hub-app/src/checklist.tsx:239-266 | step 1: the identity's thread, recorded and attached to the shared context; see `ThreadLinked` |
| `Workflow.ThreadLinked` | react-native-hub-app/src/checklist.tsx:248-263 | step 1 succeeds exactly when there is a client and the thread is obtained; it then records the thread, scopes the shared context (and so the client's) to it, keeping credentials and token, and says "User Thread linked to Identity"; a failure keeps thread, context and client |
| `Workflow.AddInstanceEffect` | react-native-hub-app/src/checklist.tsx:267-290 | step 2: one create call; the first returned id is remembered and named in the message; see `InstanceRecorded` |
| `Workflow.InstanceRecorded` | react-native-hub-app/src/checklist.tsx:277-288 | step 2 succeeds exactly when there is a client and create returns; the first id becomes `entityId` and appears in the message, or `undefined` when no id came back; a failure keeps `entityId` |
| `Workflow.FoundMessage` | react-native-hub-app/src/checklist.tsx:306 | the count in decimal followed by " existing instances found"; the count reads back from it |
| `Workflow.QueryCollectionEffect` | react-native-hub-app/src/checklist.tsx:291-312 | step 3: find the `Buzz` instances, delete them all, succeed iff the remembered id was found; see `QueryVerdict` |
| `Workflow.PushToBucket` | react-native-hub-app/src/checklist.tsx:340-361 | push `index.html` to the bucket's key and publish its gateway URL |
| `Workflow.PushWebpageEffect` | react-native-hub-app/src/checklist.tsx:313-363 | step 4: list buckets, reuse the first `files` bucket or init one, then push; see `BucketReuse` |
| `Workflow.StepBody` | react-native-hub-app/src/checklist.tsx:157-371 | dispatches step n to its body |
| `Workflow.StepRun` | react-native-hub-app/src/checklist.tsx:157-380 | runs the body and records a raised error as status 9 with its message; a number without a step changes nothing; see `StepIsolation` and `FailureIsolated` |
| `Workflow.Finish` | react-native-hub-app/src/checklist.tsx:229-230 | the step gets the given status and message and no other step changes |
| `CheckLists.CheckList.PrepareIdentity` | react-native-hub-app/src/checklist.tsx:163-238 | step 0 agrees with `PrepareIdentityEffect` |
| `CheckLists.CheckList.SetupThreadDB` | react-native-hub-app/src/checklist.tsx:239-266 | step 1 agrees with `SetupThreadEffect` |
| `CheckLists.CheckList.AddInstance` | react-native-hub-app/src/checklist.tsx:267-290 | step 2 agrees with `AddInstanceEffect` and leaves the store alone |
| `CheckLists.CheckList.QueryCollection` | react-native-hub-app/src/checklist.tsx:291-312 | step 3 agrees with `QueryCollectionEffect` and leaves the store alone |
| `CheckLists.CheckList.PushWebpage` | react-native-hub-app/src/checklist.tsx:313-363 | step 4 agrees with `PushWebpageEffect` and leaves the store alone |
| `CheckLists.CheckList.RunStep` | react-native-hub-app/src/checklist.tsx:157-380 | agrees with `StepRun`; only step n changes, and it ends Success or Failed; a number without a step changes nothing; running the current step keeps the workflow orderly |
| `Workflow.FinishValid` | react-native-hub-app/src/checklist.tsx:229-230 | recording status 2 or 9 on one step changes that step only and keeps the state valid |
| `Workflow.BodyChangesOnlyItsStep` | react-native-hub-app/src/checklist.tsx:162-371 | every completed step body changes only its own step, to 2 or 9, and keeps the index |
| `Workflow.StepIsolation` | react-native-hub-app/src/checklist.tsx:157-380 | a run changes no other step, the index or the diagnostic; the state stays valid, and stays orderly when the current step runs |
| `Workflow.FailureIsolated` | react-native-hub-app/src/checklist.tsx:372-379 | when a body raises, the state differs only in step n: status 9 with the error's message |
| `Workflow.QueryVerdict` | react-native-hub-app/src/checklist.tsx:291-311 | step 3 deletes exactly the found ids, succeeds exactly when the remembered id is among them, and reports their count |
| `Workflow.BucketReuse` | react-native-hub-app/src/checklist.tsx:320-362 | step 4 reuses the first `files` bucket's key, calls init only when none is listed, and publishes the URL of the key used |
| `Workflow.PrepareIdentityKeepsScopedContexts` | react-native-hub-app/src/checklist.tsx:223-224 | step 0 leaves every `<id>-context` entry as it was |
| `Workflow.FreshInstallStep0` | react-native-hub-app/src/checklist.tsx:163-237 | on an empty store step 0 generates, requests a token, writes identity, token and bare context entries, and reports "Created new Identity" |
| `Workflow.RestartReusesIdentityAndToken` | react-native-hub-app/src/checklist.tsx:170-227 | a later step 0 on the resulting store makes no call, reuses the identity and token, again reports "Created new Identity" with a context carrying the same credentials and token, rewrites `context`, and leaves every other entry and state field as the first run left them |
| `Workflow.InitialStateOrderly` | react-native-hub-app/src/checklist.tsx:53-63 | the initial state is valid and orderly with index 0 |
| `CheckLists.CheckList.RenderRow` | react-native-hub-app/src/checklist.tsx:423-456 | a pending current step is launched and marked running; the index rises by one exactly past a successful current step; otherwise nothing changes; the workflow stays orderly; the row shows the labels of the status |
| `Steps.StatusLabel` | react-native-hub-app/src/checklist.tsx:431-438 | "success" for 2, "error" for 9, "running" for the current row, "pending" otherwise; see `TerminalLabels` |
| `Steps.StatusIcon` | react-native-hub-app/src/checklist.tsx:440-447 | the pending, running, success or failed icon, with every code above 2 failed; see `PresentationsAgree` |
| `Steps.IconColor` | react-native-hub-app/src/checklist.tsx:449-456 | grey, orange, green or red by the same split; see `PresentationsAgree` |
| `Steps.DefaultMessage` | react-native-hub-app/src/checklist.tsx:402-419 | "step pending", "step running", "step success", otherwise "step failed"; see `UnknownCodesReadAsFailed` |
| `Steps.TerminalLabels` | react-native-hub-app/src/checklist.tsx:431-438 | the status column reads "success" exactly for 2 and "error" exactly for 9, and "running" only for the current row |
| `Steps.PresentationsAgree` | react-native-hub-app/src/checklist.tsx:440-456 | on the known codes icon, colour and default diagnostic each determine the status |
| `Steps.UnknownCodesReadAsFailed` | react-native-hub-app/src/checklist.tsx:440-456 | any code above 2 shows the failed icon, red, and "step failed" |
| `CheckLists.CheckList.ShowStatus` | react-native-hub-app/src/checklist.tsx:397-422 | the diagnostic becomes the step's quoted message, or the status default when it has none |
| `Steps.Diagnostic` | react-native-hub-app/src/checklist.tsx:400-419 | a message is shown quoted; without one, the status default; never empty |
| `Textile.FirstNamed` | react-native-hub-app/src/checklist.tsx:323 | the index of the first bucket with the name, no earlier one has it, or the list length when none does |
| `Textile.FindBucket` | react-native-hub-app/src/checklist.tsx:323 | absent exactly when no bucket has the name; otherwise the first one that has it |
| `Textile.BucketUrl` | react-native-hub-app/src/checklist.tsx:356 | the URL is `https://`, then the key, then the gateway suffix |
| `Textile.BucketUrlRoundTrip` | react-native-hub-app/src/checklist.tsx:356 | the key can be read back from the URL |
| `Textile.BucketUrlInjective` | react-native-hub-app/src/checklist.tsx:356 | distinct keys give distinct URLs |
| `Textile.WithUserKey` | react-native-hub-app/src/checklist.tsx:196-200 | attaches the credentials and leaves token and thread as they were |
| `Storage.Cached` | react-native-hub-app/src/checklist.tsx:79-80 | a hit exactly when the key is present with a non-empty value, and then that value |
| `Storage.AsyncStorage.GetItem` | react-native-hub-app/src/checklist.tsx:79 | the stored value exactly when the key is present |
| `Storage.AsyncStorage.SetItem` | react-native-hub-app/src/checklist.tsx:85 | the store gains or replaces exactly that entry |
| `Keys.Scoped` | react-native-hub-app/src/checklist.tsx:91 | the key is the identity, a dash, then the purpose |
| `Keys.ScopedInjective` | react-native-hub-app/src/checklist.tsx:91 | two identities never share a key of one purpose |
| `Keys.KeysDisjoint` | react-native-hub-app/src/checklist.tsx:29-33 | identity, token, context and thread keys never collide, whatever the identities |
| `Keys.IdentityKeyValue` | react-native-hub-app/src/checklist.tsx:29-30 | the identity key is `identity-7` |
| `Keys.BareContextKeyNeverScoped` | react-native-hub-app/src/checklist.tsx:109 | the bare `context` key is never `<id>-context` |
| `Text.NatToString` | react-native-hub-app/src/checklist.tsx:306 | a non-empty string of decimal digits, one digit exactly below 10 |
| `Text.ParseNatToString` | react-native-hub-app/src/checklist.tsx:306 | reading the printed count back gives the count |
| `Text.NatToStringInjective` | react-native-hub-app/src/checklist.tsx:306 | distinct counts print differently |
| `Text.Template` | react-native-hub-app/src/checklist.tsx:284 | a value interpolated into a template literal, with an absent value printed `undefined` |
| `Text.JsonQuote` | react-native-hub-app/src/checklist.tsx:400 | the message between double quotes |

## Left out

- Rendering: JSX, `FlatList`, styles, `TouchableOpacity` and `Linking.openURL` are UI.
  The model keeps only a row's labels and the driver logic of `renderRow`.
- `runAllSteps`: the 1200 ms pause exists only for pacing. The step launched by
  `renderRow` is run by a separate, completed `RunStep` call. Its `catch` can only
  catch a failing pause, so it is not modelled.
- AsyncStorage as real I/O: it is an in-memory map, and its reads and writes do not fail.
- The textile libraries' internals are not modelled. `Libp2pCryptoIdentity`, `Context`,
  `Client`, `Buckets`, `ThreadID` and `Where` appear only through the answers in `Replies`.
  Identities and thread ids are represented by their string forms.
- The `ThreadID` byte round trip on a cache hit: a restored thread id is its cached string.
- `Date.parse`, `JSON.parse`, `JSON.stringify` and `Context.fromJSON` of contexts: the signature
  expiry is an integer, or absent when the field is missing or not a date. The serialised form
  comes from `encode`, `sigExpiry` and `fromJSON` of `Env`.
- `withUserKey` also signs the request. That signature and its expiry are not computed.
- `astronautSchema` and `createAstronaut` are not part of this model. The `Create` call does not carry the record.
- React's state merging: `setState` is an assignment of the whole state. Step 1 also stores `ctx` under an
  unused `message` state key, which is not modelled.
- `getUserThread`'s `ctx` parameter is unused by the source and is omitted.
- `Text.JsonQuote`: does not model JSON's escaping of quotes, backslashes and control characters inside the message.
- `Workflow.RestartReusesIdentityAndToken`: the source signs the new context again on every run, so the rewritten `context` value and the state's `ctx` differ between runs by a new signature and expiry. The model does not compute the signature, so the lemma promises equality only for the credentials, the token, the other entries and the other state fields.
- `UNDEFINED_CLIENT`: the text of a TypeError is the JavaScript engine's; the model uses one fixed message.
- `CheckLists.CheckList.IncrementStatus`, `CheckLists.CheckList.ShowStatus` and `CheckLists.CheckList.RenderRow` require an
  index that has a row. The source throws a TypeError otherwise, and it only calls them with row indices.
