# Verification of the CIMD registrar and its readers

A Dafny model of the parts of this repository that have to agree with each other while they run side by side: the
**registrar**, which turns client metadata documents into Cognito app clients and rows of a mapping table; the
**proxy**, which authorizes with those rows; the **MCP server**, which caches answers about them; and the rules both
languages share about client identifier URLs. `dafny verify dfyconfig.toml` checks everything.

The registrar exists twice. As code: classes `Store`, `CognitoOps` and `Reconciler` with the fields, loops and branches
of the Python classes, where every external call may raise and a call that raises may or may not have taken effect; the
stores count the calls that raised, so that nothing fails without one. As a step system: a step is one iteration of one
of the registrar's loops, cut off after any number of its effects. Each method is proved to be such a step, or a run of
them, and what the design promises is proved of all runs.

| files | what they hold |
|---|---|
| `Registry`, `Reaction`, `Steps` | table, app clients and atomic effects; the reaction to one URL as a plan; steps and their cuts |
| `Store`, `Cognito`, `Reconcile` | the imperative registrar, proved against the step system |
| `Runs`, `Visits`, `History`, `Records`, `Keys`, `Staleness`, `Rotation`, `Retirement`, `Callbacks`, `Lifecycle` | invariants and histories over all runs |
| `Lock`, `Handler`, `Dispatch`, `System` | the TTL lock, waiting for it, the work done under it, and invocations interleaved under it |
| `Freshness`, `Gate`, `MappingStore`, `OAuth`, `Proxy` | the readers: gate, cache, request validation, outgoing requests |
| `Fetcher`, `Deadline`, `Transport` | cache lifetimes, the read loop and budget; the two threads of a bounded call and of its cancellation |
| `CimdUrl`, `Percent`, `Utf8`, `Strings` | client identifier URLs and percent-decoding in both languages |
| `Examples`, `Timelines` | concrete inputs and runs for the promises that do not hold |

## How the results fit together

1. `Registry` shows that one legal effect keeps the invariant, `Steps` that every effect of every step is legal, `Runs`
   that it therefore holds wherever an invocation is cut off. Fresh ids, the all-or-nothing transactions and the
   https-only URL rule are all used.
2. `Lock` proves mutual exclusion from the numbers of the deployment. `System` uses it to show that any interleaving of
   invocations looks, to every reader, like whole and cut steps one after another.
3. `Freshness` and `MappingStore` read the table of `System` at arbitrary moments. What they may conclude comes from the
   histories: which visit a row's times, keys and fingerprint come from.
4. `Proxy` closes the chain: what is sent to Cognito comes from one row, and that row is justified by step 3.

## Where the code does less than its comments

Each has a concrete input and an exact condition in the table below.

- **Keys under a 304.** A comment says that with a client whose declared keys could not be fetched /authorize fails
  closed until they are validated (lambdas/registrar/reconcile.py:149-151). A 304 extends the cache without asking for
  the keys, so requests that begin later are held off exactly if no such answer comes: `Gate.GateStaysShutIff`,
  `Keys.KeylessStaysClosedIff`, `Examples.UnmodifiedAfterMissingKeys`, `Examples.KeylessThenConfirmed`. Two further
  exceptions are in the gate itself. A request whose own visit has just confirmed the client is let through with
  whatever enabled row it reads next, also one written without keys in between: `Timelines.AuthorizedInFlight`. And a
  proxy whose clock is behind the row takes it for cached: `Gate.ShutAfterKeyless`.
- **Rotations under a 304.** The fingerprint covers the fetched keys so that a rotation behind an unchanged URL is
  detected (lambdas/registrar/reconcile.py:219-220). While the document is answered by a 304 the keys are not fetched,
  and the client is confirmed under its former ones: `Rotation.RotationDetectedIff`.
- **Bounded staleness.** A comment says a client is disabled after max_stale seconds without a successful revalidation
  (lambdas/registrar/reconcile.py:104). The time that is compared is also rewritten by visits that read a document and
  could not fetch its keys (lambdas/registrar/reconcile.py:161), which revalidate nothing. So the bound holds exactly
  while the row's times are not from such a visit; it is twice max_stale as long as no such visit brings a disabled
  client back, and there is none otherwise: `Staleness.VisitBoundsStaleness`, `Staleness.OutagesKeepBoundIff`,
  `Timelines.ConfirmedLongAgo`, `Timelines.NoBoundRemains`.
- **Keys that stay unavailable.** Beyond max_stale a client without validated keys is disabled
  (lambdas/registrar/reconcile.py:154-158), but that check looks only at enabled rows, so the next visit enables it
  again, stale and unconfirmed: `Keys.KeylessVisitEnablesIff`, `Keys.KeylessVisitsAlternate`, `Lifecycle.StaysOutIff`,
  `Timelines.NoBoundRemains`.
- **Orphans.** lambdas/registrar/store.py:66-68 says a rotation can never leave an orphaned Cognito client. The
  transaction guards the old app client; the new one is orphaned exactly if the step is cut off between its creation
  and that transaction: `Runs.OrphansComeFromCutSteps`, `Timelines.RotationLeavesAnOrphan`.
- **Removed clients.** README.md:349 says a removed client is disabled and then deleted one access-token lifetime later.
  Only a row still enabled at removal gets a deletion time (lambdas/registrar/reconcile.py:263-264):
  `Lifecycle.RemovalDeletesIff`, `Examples.SweptButKept`.
- **Callbacks after an aborted update.** `update_callbacks` and `put_client` are two calls. If the document returns to
  the stored redirect URIs after a cut between them, nothing repairs Cognito: `Callbacks.MisalignedIff`,
  `Callbacks.DocumentVisitAlignsIff`, `Examples.TornUpdateStays`.
- **The registered-client window.** lambdas/shared/mapping_store.py:4-6 calls `cache_seconds` the upper bound on
  honouring a disabled client. The stamp is taken after the read, so the bound is `cache_seconds` plus the latency of
  one read: `MappingStore.WindowIsTtlIff`, `Examples.HonouredTooLong`.
- **A 304 on a disabled row.** A removed client that is listed again and answered by a 304 stays disabled and keeps its
  deletion time (lambdas/registrar/reconcile.py:126-131), so the run that greets it can purge a client that is on the
  allow-list: `Lifecycle.DisabledVisitEnablesIff`, `Lifecycle.RelistedSurvivesIff`, `Examples.RelistedThenPurged`.

## Model

| member | source | states |
|---|---|---|
| `Registry.LegalEffectKeepsInv` | lambdas/registrar/store.py:53-89 | every atomic write the registrar may issue keeps CLIENT rows and INDEX rows in bijection with equal enabled flags, keeps `enabled` and `delete_after` exclusive, and keeps every existing app client accounted for |
| `Steps.PlanShape` | lambdas/registrar/reconcile.py:83-201 | whatever the network answers, one visit plans nothing, one rewrite of the row with the same app client, new callbacks followed by the row that records them, or a new app client followed by the row that names it and retires the old one |
| `Steps.EffectsAreLegal` | lambdas/registrar/reconcile.py:63-282 | each effect of every visit, retirement, purge and deletion is legal in the state its predecessors leave, so a step may be cut off anywhere |
| `Runs.MidStepKeepsInv` | lambdas/registrar/reconcile.py:83-201 | the invariant holds between any two effects of a step, not only between steps |
| `Runs.RowsInBijection` | lambdas/registrar/store.py:53-89 | in every state reached by any run of whole and cut-off steps, CLIENT and INDEX rows are in bijection and no two URLs share an app client |
| `Runs.LosingAnIdKillsIt` | lambdas/registrar/reconcile.py:174-201 | an app client that a URL loses in any step, by rotation, re-creation or deletion, serves no URL from then on |
| `Runs.RetirementIsFinal` | lambdas/registrar/store.py:73-79 | once an app client serves no URL, no later state has an enabled INDEX row for it or gives it back to a URL |
| `Runs.UnnamedAppsAreOrphans` | lambdas/registrar/reconcile.py:167-200 | between steps the existing app clients that no row names are exactly those an aborted step created and never wrote |
| `Runs.OrphansComeFromCutSteps` | lambdas/registrar/reconcile.py:167-200 | a step orphans an app client exactly when it is cut off after `create_client` and before `put_client`, and then only that one |
| `Timelines.RotationLeavesAnOrphan` | lambdas/registrar/store.py:63-68 | the concrete run from nothing registered: a rotation cut off between `create_client` and `put_client` leaves an app client in Cognito that no row names |
| `Runs.HardDeleteResumes` | lambdas/registrar/reconcile.py:275-282 | a hard delete that was cut off anywhere can be run again and ends in the state an uninterrupted one reaches |
| `History.FingerprintIsLastValidated` | lambdas/registrar/reconcile.py:144-165 | over any run the stored fingerprint, and the time the keys are said to be from, are those of the last visit whose key material was validated, whatever key fetches failed since |
| `History.FingerprintsAgreeIff` | lambdas/registrar/validate.py:152-156 | two visits with validated keys have the same fingerprint if and only if their documents have the same jwks and jwks_uri and the same content was behind that URI |
| `History.RotatesIff` | lambdas/registrar/reconcile.py:174-201 | a step replaces a URL's app client if and only if it is a committed visit that writes a document, and Cognito has lost the client or jwks, jwks_uri or the fetched keys are not those found by the last visit that validated keys |
| `Rotation.RotationDetectedIff` | lambdas/registrar/reconcile.py:219-220 | false promise, exact condition: once every visit that validates keys finds other jwks, jwks_uri or fetched keys than those on record, no visit confirms the client under the former ones if and only if no 304 for the enabled row comes before a committed visit that reads its keys |
| `Rotation.NewKeysRetire` | lambdas/registrar/reconcile.py:174-184 | a committed visit that validates other jwks, jwks_uri or fetched keys than the last one retires the app client, in every later state of the run |
| `Retirement.ReplacedIsRetired` | lambdas/registrar/store.py:73-79 | a step that gives a URL another app client leaves the former one's INDEX row disabled and its bookkeeping row under retired:// disabled and due one access-token lifetime after the visit |
| `Retirement.RetiredClientLeavesIff` | lambdas/registrar/reconcile.py:268-282 | after that, over any run short of deleting everything: the bookkeeping row stays as it is until a complete purge at or after its time, from then on rows and app client are gone for good, and the app client is in Cognito until such a purge takes it unless somebody else deletes it |
| `Timelines.RotationBehindUrl` | lambdas/registrar/reconcile.py:219-220 | a concrete run from nothing registered: the same document with other keys behind its jwks_uri gets a new app client, and a purge after one token lifetime takes the former one out of Cognito |
| `History.RowsAreTimed` | lambdas/registrar/reconcile.py:112-165 | every row of a client identifier URL carries the times of a committed visit that confirmed its document, with a cache lifetime of 0 or within the bounds, keys included if it was ever cacheable; and no later visit has confirmed the client |
| `Keys.TimedByConfirmedIff` | lambdas/registrar/reconcile.py:144-165 | that visit confirmed the client, keys included, if and only if it was not one that read a valid document and could not fetch the keys it declares |
| `History.RowsComeFromDocuments` | lambdas/registrar/reconcile.py:144-165 | over any run every row's redirect URIs and name are those of a document of that very client_id that satisfies every rule, and the row's ETag is that document's, so a 304 speaks of the document in the row |
| `Records.DocumentIsRecorded` | lambdas/registrar/reconcile.py:144-165 | what a visit that writes a document leaves, member by member: name, redirect URIs, ETag and keys unless no-store forbids them, cache lifetime 0 and the former fingerprint if the keys could not be fetched |
| `Records.CacheIsRespectedIff` | lambdas/registrar/reconcile.py:92-95 | an unforced visit of an enabled row asks nobody before cache_until, and from then on asks and believes a 304 |
| `Reconcile.ValidateDocument` | lambdas/registrar/validate.py:105-149 | the list of problems has each problem exactly if its condition is violated, and is empty exactly for the documents that are registered |
| `Staleness.CacheableMeansConfirmed` | lambdas/registrar/reconcile.py:126-165 | a row that is still cacheable has its times from a visit less than cache_max before, and unless the clock ran backwards that visit confirmed the client, keys included |
| `Staleness.VisitBoundsStaleness` | lambdas/registrar/reconcile.py:92-131 | over any run whose cache bounds stay within max_stale: what a visit that completes without raising leaves enabled has its times from a visit at most max_stale before, the cached-skip branch included. Unless that one could not fetch the keys, the client was confirmed, keys included, at most max_stale before; and at most twice max_stale before if no visit without keys ever brought it back |
| `Staleness.OutagesKeepBoundIff` | lambdas/registrar/reconcile.py:100-109 | false promise, exact condition: whenever the next fetch fails, a client that survives it was confirmed, keys included, at most max_stale before, if and only if something confirmed it no earlier than the times in its row; with visits at advancing times, if and only if those times are not from a visit without keys |
| `Staleness.SteadyRowsAreKeyed` | lambdas/registrar/reconcile.py:144-165 | what bound remains: over any run in which no visit without keys brings a disabled client back, an enabled row was confirmed, keys included, at most max_stale before the time it carries |
| `Timelines.ConfirmedLongAgo` | lambdas/registrar/reconcile.py:100-109 | the concrete run from nothing registered: confirmed at 0, visited without keys at 200000, and still enabled after the failed fetch at 400000 with a max_stale of 259200 |
| `Timelines.NoBoundRemains` | lambdas/registrar/reconcile.py:154-161 | no bound at all otherwise: for every time beyond max_stale, a run from nothing registered in which the client is disabled at that time for its keys, and enabled again 100 seconds later without having been confirmed since 0 |
| `Staleness.ReachableIsCapped` | lambdas/registrar/reconcile.py:126-165 | in every reachable state no row is cacheable for longer than the largest bound any visit worked with |
| `Staleness.StepKeepsCapped` | lambdas/registrar/reconcile.py:63-282 | no step of any kind lifts that cap |
| `Staleness.RecentlyConfirmed` | lambdas/registrar/reconcile.py:100-131 | a recent time in a reachable row comes from a visit of the run, and says of the confirmation of the client, keys included, what the bound on staleness says |
| `Staleness.VisitKeepsServed` | lambdas/registrar/reconcile.py:63-74 | the staleness bound of the URLs whose visits did not raise survives any further visit, whether that raises or not |
| `Keys.ValidatedIff` | lambdas/registrar/reconcile.py:83-201 | a visit may say that it validated a client exactly after a 304 for an enabled row whose redirect URIs pass the rules, or after a valid document with all declared keys |
| `Keys.KeylessStaysClosedIff` | lambdas/registrar/reconcile.py:148-165 | after a visit that could not fetch declared keys, and as long as none validates keys, the row stays closed to readers that do not ask the registrar, and unconfirmed, if and only if no later visit is answered by a 304 for the enabled row |
| `Gate.GateStaysShutIff` | lambdas/registrar/reconcile.py:148-165 | false promise, exact condition: over all interleavings of a history, no request that begins after a visit without keys, on a clock not behind the row, is let through before keys are validated, if and only if no later visit is answered by a 304 for the enabled row |
| `Gate.ShutAfterKeyless` | lambdas/cimd_proxy/freshness.py:34-54 | for one such request and any clock: with no 304 and no validated keys since, it is let through exactly if the proxy's clock is behind the time in the row it reads |
| `Timelines.AuthorizedInFlight` | lambdas/cimd_proxy/freshness.py:44-54 | a request already under way is another matter: a concrete interleaving in which its own visit confirms the client, another invocation then misses the keys, and the request is let through with the row that one has left |
| `Keys.KeylessVisitEnablesIff` | lambdas/registrar/reconcile.py:148-165 | false promise, exact condition: a visit that reads a document but not its keys leaves the client enabled exactly if it was disabled or its keys are not too old; it never confirms it, makes it cacheable or changes its fingerprint |
| `Keys.KeylessVisitsAlternate` | lambdas/registrar/reconcile.py:154-165 | the failing family: a client disabled because its keys are too old is enabled again by the next such visit |
| `Keys.UnstoredNeedsKeysEveryTime` | lambdas/registrar/reconcile.py:161-164 | a document under no-store leaves no ETag and no keys in the row, so its client is only ever confirmed together with its keys |
| `Examples.UnmodifiedAfterMissingKeys` | lambdas/registrar/reconcile.py:148-165 | a concrete run in which keys cannot be fetched, the row is marked stale, and the next 304 confirms it for another cache_min seconds without them |
| `Examples.KeylessThenConfirmed` | lambdas/registrar/reconcile.py:126-165 | the same as a run from nothing registered, with the keyless visit and the 304 that follows it |
| `Callbacks.RunsStayAligned` | lambdas/registrar/reconcile.py:167-200 | over any run without a cut between `update_callbacks` and `put_client`, every row's redirect URIs are a permutation of its app client's callback URLs, whatever else was cut off |
| `Callbacks.MisalignedIff` | lambdas/registrar/reconcile.py:167-200 | over any history a row and its app client's callbacks disagree exactly if the last step that tore them apart has not been followed by one that wrote both or by the end of the app client |
| `Callbacks.DocumentVisitAlignsIff` | lambdas/registrar/reconcile.py:174-199 | after such a cut, a complete visit that reads a document restores the agreement exactly when its redirect URIs differ from the stored ones, Cognito has lost the app client, or the validated keys are new |
| `Examples.TornUpdateStays` | lambdas/registrar/reconcile.py:193-199 | a concrete run from nothing registered: a cut-off update after which a complete visit with the original document leaves Cognito with the other callbacks |
| `Lifecycle.RemovalDeletesIff` | lambdas/registrar/reconcile.py:257-273 | false promise (README.md:349), exact condition: a row whose URL was removed is gone after a purge if and only if its deletion time has come for that purge or an earlier one; a row enabled when the sweep met it goes from one access-token lifetime later on and no sooner, and one disabled without a deletion time never goes |
| `Lifecycle.DisabledBeforeRemovalIsKept` | lambdas/registrar/reconcile.py:263-264 | a row disabled before its URL was removed survives every later run that does not visit it |
| `Examples.SweptButKept` | lambdas/registrar/reconcile.py:257-273 | the concrete run from nothing registered: both sweeps, at any times, leave such a row in place |
| `Lifecycle.DisabledVisitEnablesIff` | lambdas/registrar/reconcile.py:112-165 | contact alone does not bring a client back: a visit leaves a disabled client enabled exactly if it reads a valid document, and otherwise keeps its deletion time |
| `Lifecycle.StaysOutIff` | lambdas/registrar/reconcile.py:112-165 | over any run, a client that is unknown or disabled, for keys that are too old or any other reason, stays out of service exactly until a committed visit reads a valid document |
| `Lifecycle.RelistedSurvivesIff` | lambdas/registrar/reconcile.py:63-74 | false promise, exact condition: a disabled client that is listed again survives the visits and closing sweeps of a run exactly if its visit reads a valid document or its deletion time has not come |
| `Examples.RelistedThenPurged` | lambdas/registrar/reconcile.py:126-131 | the concrete run: removed, listed again, answered by a 304, and purged although it is on the allow-list |
| `Lifecycle.SweptCases` | lambdas/registrar/reconcile.py:257-273 | what the two sweeps make of one row: leaving rows are disabled at once and live one token lifetime, listed enabled rows are untouched, nothing past its deletion time remains |
| `Lifecycle.SweepIsPerRow` | lambdas/registrar/reconcile.py:257-273 | the two sweeps over the whole table act on each row by itself |
| `Visits.PlanRow` | lambdas/registrar/reconcile.py:83-201 | every row a visit writes is one of four kinds, a visit may say validated_now exactly if it wrote a confirming kind, and an enabled row it leaves alone is cached or not yet too stale |
| `Visits.StepRows` | lambdas/registrar/reconcile.py:83-282 | a step changes the row of its own URL and no other client row |
| `Reconcile.Reconciler.ReconcileUrl` | lambdas/registrar/reconcile.py:83-201 | the visit, statement by statement and cut off wherever a call raises, is a step of the model; it raises exactly if a call did or the plan says so, and otherwise it is complete, its result is the planned verdict, and the app client it serves has a login page |
| `Reconcile.Reconciler.NotModified` | lambdas/registrar/reconcile.py:112-131 | the 304 branch: re-check the stored redirect URIs, then extend the cache, or disable |
| `Reconcile.Reconciler.OnDocument` | lambdas/registrar/reconcile.py:133-165 | the 200 branch: validate, judge the keys, build the row or disable |
| `Reconcile.Reconciler.Commit` | lambdas/registrar/reconcile.py:167-184 | registration and rotation, in the order of the external calls |
| `Reconcile.Reconciler.KeepOrRecreate` | lambdas/registrar/reconcile.py:186-201 | an unchanged client keeps its app client, a lost one is replaced and retired |
| `Reconcile.Reconciler.RefreshClient` | lambdas/registrar/reconcile.py:193-200 | callbacks change before the row, and only if the redirect URIs differ as multisets |
| `Reconcile.Reconciler.JwksContent` | lambdas/registrar/reconcile.py:218-234 | what is known about the keys after the guarded fetch; a first registration without them is refused |
| `Reconcile.Reconciler.CreateAndWrite` | lambdas/registrar/reconcile.py:204-211 | a new app client, its branding, then its row, cut off anywhere |
| `Reconcile.Reconciler.Run` | lambdas/registrar/reconcile.py:63-74 | after any history the record of a run begins with one visit of every listed URL, in order and as forced or unforced as asked, whatever raises; then come retirements and purges only. When the sweeps end every enabled row is listed and none is past its deletion time, and each row whose visit did not raise is timed and confirmed as recently as the bound on staleness says |
| `Reconcile.Reconciler.ReconcileAll` | lambdas/registrar/reconcile.py:66-71 | one bad client does not block the others: every listed URL is visited whether or not a visit before it raised, each visit that did not raise is complete and as planned, one that raised without its plan saying so met a call that raised, and every URL whose visit did not raise is served within the bound |
| `Reconcile.Reconciler.RetireRemoved` | lambdas/registrar/reconcile.py:257-266 | a finished sweep disables exactly the enabled rows that are off the list; an aborted one is some of its steps |
| `Reconcile.Reconciler.PurgeExpired` | lambdas/registrar/reconcile.py:268-273 | a finished sweep deletes exactly the expired rows and their app clients; an aborted one is some of its steps |
| `Reconcile.Reconciler.HardDelete` | lambdas/registrar/reconcile.py:275-282 | branding, then app client, then both rows, cut off anywhere, and only where a call raised |
| `Reconcile.Reconciler.DeleteAll` | lambdas/registrar/reconcile.py:76-80 | nothing but deletions; if no call raised no row is left |
| `Reconcile.Reconciler.RevalidateOne` | lambdas/registrar/reconcile.py:237-255 | an unlisted URL is refused untouched; fresh is reported only if this very visit confirmed the document and the row is enabled afterwards |
| `Store.Store.PutClient` | lambdas/registrar/store.py:63-80 | the transaction happens as a whole or not at all, and as a whole it is the specified change of both rows and the retired bookkeeping |
| `Store.PutItems` | lambdas/registrar/store.py:69-79 | the item list built for the transaction amounts to that change, whichever items it has |
| `Store.Store.Transact` | lambdas/registrar/store.py:59-61 | all items or none, also when the call raises |
| `Store.Store.ListClients` | lambdas/registrar/store.py:43-51 | the paging loop returns every client row exactly once |
| `Store.Store.DeleteClientRows` | lambdas/registrar/store.py:85-89 | both rows go together or stay |
| `Store.Store.AcquireLock` | lambdas/registrar/store.py:92-101 | the lock is taken exactly if there is no item or its ttl is before the current second |
| `Store.Store.ReleaseLock` | lambdas/registrar/store.py:103-107 | only the owner's own item is deleted |
| `Cognito.CognitoOps.CreateClient` | lambdas/registrar/cognito_ops.py:28-47 | a created app client has an id that was never issued before |
| `Cognito.CognitoOps.DeleteClient` | lambdas/registrar/cognito_ops.py:63-65 | deleting is idempotent and touches one app client |
| `Lock.ItemOutlivesHolder` | lambdas/registrar/store.py:92-101 | no second a running clock can show is past the lock item of an invocation that is still inside, truncation to seconds and clock error included |
| `Lock.MutualExclusion` | lambdas/registrar/store.py:92-107 | over every run of starts, delayed writes, lost replies, crashes, expiry, table TTL deletions and late releases, two invocations are never in the locked section together |
| `Lock.AttemptEntersIff` | lambdas/registrar/store.py:92-101 | an attempt enters exactly if there is no item or its own second is past the item's ttl, and then the item is its own with a full ttl |
| `Lock.DeadHoldersAreReplaced` | lambdas/registrar/store.py:92-101 | after any run, an item whose writer died is taken over by the first attempt a time to live and two clock errors later |
| `Lock.ConfigCoversSkew` | lib/derive.ts:145 | a lock TTL above 1.5 timeouts covers clock errors of up to a quarter of the timeout |
| `Handler.BackoffIs` | lambdas/registrar/handler.py:48-58 | the pauses asked for are 2, 4, 8, 16 and then 20 seconds |
| `Handler.AcquireWithin` | lambdas/registrar/handler.py:45-58 | the waiting loop ends, takes the lock at the first attempt that finds it free, gives up only at or after the deadline with every attempt refused, raises only if a call did, pauses as asked after each attempt, tries once if there is no time to wait, and with instant calls makes no attempt more than a tenth of a second past the deadline |
| `Handler.PausesFit` | lambdas/registrar/handler.py:57-58 | the pauses of an unsuccessful wait add up to less than the time to wait and a tenth of a second |
| `System.MoveKeepsInv` | lambdas/registrar/handler.py:45-62 | one move of any invocation or of the lock keeps: at most one iteration under way, and the shared stores are the finished iterations plus the effects that one has had |
| `System.ReadersSeeSerialRuns` | lambdas/registrar/handler.py:45-62 | serializability: in every state that interleaved invocations can reach, the table a reader sees is that of a run of whole and cut steps one after another |
| `System.SerialRunsHappen` | lambdas/registrar/handler.py:45-62 | the converse: every run of whole and cut steps is the history of an interleaving the lock permits |
| `System.NoReaderSeesItAgain` | lambdas/registrar/store.py:73-79 | in no interleaving does a reader see a retired app client enabled again |
| `Dispatch.WithLock` | lambdas/registrar/handler.py:45-62 | work is done only by an invocation whose attempt found the lock free; it starts from the stores as others have left them by then, it is the work that was asked for with what that work promises, it fails only if a call raised, and the lock is given back without touching anyone else's item |
| `Dispatch.Perform` | lambdas/registrar/handler.py:71-102 | each kind of work does what it is for: a run visits every listed URL and sweeps, deleting everything is deletions that leave nothing, a revalidation is one forced visit of its URL |
| `Dispatch.ResourceRequest` | lambdas/registrar/handler.py:71-82 | the custom resource branch: a deletion deletes everything, any other request is a forced run, and a run with a raised visit fails the deployment |
| `Dispatch.RevalidateRequest` | lambdas/registrar/handler.py:84-93 | the revalidate branch: locked means nothing happened, and any finished reply is what the one step made under the lock entitles it to say |
| `Dispatch.ScheduledRun` | lambdas/registrar/handler.py:95-102 | the scheduled branch: one attempt at the lock, no step if another one holds it, and otherwise an unforced run with all that a run promises |
| `Dispatch.ReplyIsProduced` | lambdas/registrar/handler.py:84-93 | among interleaved invocations such a reply is one the moves of the call produced |
| `Freshness.FreshMapping` | lambdas/cimd_proxy/freshness.py:27-54 | the gate, with its reads of the row, decides as specified for any reply at all, malformed ones included |
| `Freshness.ReplyMeanings` | lambdas/cimd_proxy/freshness.py:40-52 | a reply vouches or refuses only if it is an object that says so, and of the registrar's outcomes exactly a confirmed and enabled one vouches and exactly unlisted and disabled ones refuse |
| `Freshness.InvalidClientIsKnown` | lambdas/cimd_proxy/freshness.py:34-54 | under any interleaving, invalid_client is never a guess: at some moment from the first read to the last the row was missing or disabled, or the URL was off the allow-list |
| `Freshness.RefusingReplySawIt` | lambdas/registrar/reconcile.py:252-255 | a registrar that reports the client disabled has left it so, in a state between the two reads |
| `Freshness.TroubleOnlyDelays` | lambdas/cimd_proxy/freshness.py:44-64 | an enabled but stale client is temporarily_unavailable exactly if the reply neither refuses nor vouches, whatever its shape; of the registrar's own answers that is contention, a crash, a failed call and an unconfirmed revalidation |
| `Freshness.VouchingReplyIsBacked` | lambdas/registrar/reconcile.py:237-255 | under any interleaving, a reply that vouches for a client stands for a complete visit of that URL that confirmed it and ended during the call |
| `Freshness.TimedSince` | lambdas/registrar/reconcile.py:237-255 | a row read after a confirming visit carries the times of that visit or of a later one that confirmed its document |
| `Freshness.AuthorizedMeansConfirmed` | lambdas/cimd_proxy/freshness.py:34-54 | under any interleaving with the registrar, a mapping that may authorize was enabled at its last consistent read, and either a visit less than cache_max ago confirmed it, keys included, or one that ended between the two reads did; in that case the row is as that visit or a later one left it, and it is itself confirmed exactly if that later one was not without keys |
| `MappingStore.MappingStore.IsRegisteredCognitoClient` | lambdas/shared/mapping_store.py:66-80 | every answer was true of the table less than ttl plus one read latency before it is used, so an app client retired longer ago than that is refused |
| `MappingStore.MappingStore.ByCimdUrl` | lambdas/shared/mapping_store.py:54-64 | a consistent read returns the row as it is during the call, whatever is cached; any other is answered from the cache exactly within its ttl |
| `MappingStore.MappingStore.WindowIsTtlIff` | lambdas/shared/mapping_store.py:66-80 | false promise, exact condition: a client retired while its answer is cached is still answered for ttl seconds later, at some time, if and only if that answer was stored after the retirement, its read having come before |
| `Examples.HonouredTooLong` | lambdas/shared/mapping_store.py:66-80 | the concrete timeline: read before the disablement, stored after it, and still honoured more than ttl seconds later |
| `MappingStore.DeadIsRetiredFrom` | lambdas/shared/mapping_store.py:66-80 | in every run of the whole system an app client that serves no URL at some time is never seen registered afterwards |
| `OAuth.SingleValued` | lambdas/cimd_proxy/oauth.py:89-96 | a repeated parameter refuses the request; otherwise the result holds exactly the given pairs |
| `OAuth.ResolveRedirectUri` | lambdas/cimd_proxy/oauth.py:169-178 | the resolved URI is always a registered one, and the given one if one was given |
| `OAuth.ValidateAuthorizeIff` | lambdas/cimd_proxy/oauth.py:181-208 | a request is accepted if and only if it asks for a code, has a challenge that passes the rule with method S256, names no other resource than this server's and no scope word but openid and the configured one; which condition fails first decides the error; and what is accepted says what was asked, with the defaults for what was left out |
| `OAuth.TokensAreWords` | lambdas/cimd_proxy/oauth.py:199 | the requested scopes are the maximal runs without a space of the scope parameter |
| `OAuth.CarriedFormValidates` | lambdas/cimd_proxy/oauth.py:150-208 | a form that carries an accepted request through the consent page yields the identical request if and only if its scope reads back |
| `OAuth.ConsentRoundTrip` | lambdas/cimd_proxy/proxy_app.py:118-128 | re-validating the consent form yields the identical request whenever the configured scope has no space |
| `Proxy.ValidatedAuthorize` | lambdas/cimd_proxy/proxy_app.py:181-199 | a request is let through exactly if its client is known and served, its redirect URI registered, its parameters acceptable and the gate open; what is answered in every other case, and that no error is redirected before the client is known, enabled and has registered that URI |
| `Proxy.Consent` | lambdas/cimd_proxy/proxy_app.py:118-128 | only a form with the token of its cookie that approves an authorizable request leads to Cognito; a denied one goes back to its redirect URI with access_denied and its state |
| `Proxy.OnlyTheClientIdIsTranslated` | lambdas/cimd_proxy/oauth.py:211-217 | the request to Cognito is for a code with an S256 challenge and carries the row's app client and a redirect URI of that row; challenge and state are those the client sent |
| `Proxy.GrantUpstream` | lambdas/cimd_proxy/proxy_app.py:134-150 | an authorization_code grant needs code, code_verifier and a redirect URI of the row, a refresh_token grant its token; exactly those parameters are relayed, and each failure has its error |
| `Proxy.Token` | lambdas/cimd_proxy/proxy_app.py:130-158 | a token request is relayed exactly if it is relayable: a known grant with all its parameters, a registered redirect URI, this server's resource and a mapping the gate lets through; it then names the app client of that one row and carries exactly the grant's own parameters |
| `Proxy.AuthorizedRequestIsJustified` | lambdas/cimd_proxy/proxy_app.py:181-204 | end to end, under any interleaving: what goes to Cognito comes from one row of that client identifier, enabled and justified by the confirming visits the gate names, and its app client belongs to no other URL |
| `Proxy.TokenRequestIsJustified` | lambdas/cimd_proxy/proxy_app.py:130-158 | the same end to end for token requests |
| `Proxy.RedirectUriWasDocumented` | lambdas/cimd_proxy/proxy_app.py:181-204 | the redirect URI of such a row was listed, and passed the URI rules, in a valid document whose client_id is that client identifier |
| `Fetcher.CacheSeconds` | lambdas/registrar/fetcher.py:316-329 | the directive loop computes 0 under no-store or no-cache and otherwise the last well-formed max-age within the bounds |
| `Fetcher.Lifetime` | lambdas/registrar/fetcher.py:316-329 | a cache lifetime is 0 or within the bounds |
| `Fetcher.LifetimeIs` | lambdas/registrar/fetcher.py:316-329 | without no-store and no-cache it is the seconds of the last well-formed max-age, raised to the minimum and cut to the maximum, and the minimum if there is none |
| `Fetcher.InterpretIff` | lambdas/registrar/fetcher.py:265-313 | a fetch yields a document exactly from a 200 with a JSON object and not-modified exactly from a 304 to an ETag that was sent |
| `Fetcher.ReadBody` | lambdas/registrar/fetcher.py:272-294 | the capped read loop: every read asks for 1 to 4096 bytes, at most max_bytes + 1 are ever held, a returned body is the whole stream and within the cap, no read stalled and every clock check before a success was inside the budget, and each failure has its cause |
| `Fetcher.FetchDocument` | lambdas/registrar/fetcher.py:199-313 | the caller never waits longer than the budget in all, connects only after every resolved address was checked, and gets the reply exactly if every step of the fetch was in time |
| `Deadline.CallerFindsOneResult` | lambdas/registrar/fetcher.py:54-69 | in every interleaving, a caller past the test finds exactly one half of the box filled, returns or raises what the call came to, and has waited no longer than it wanted to |
| `Deadline.GivesUpIff` | lambdas/registrar/fetcher.py:54-69 | the caller gives up exactly if the thread is still alive at the test, and then the time was used up |
| `Deadline.AbandonedStaysAbandoned` | lambdas/registrar/fetcher.py:54-69 | a caller that has given up never gets a late result |
| `Deadline.CallerGetsAway` | lambdas/registrar/fetcher.py:61-69 | from any point of any interleaving the caller ends without the worker's help, at once if the call is over and at the deadline if not, and gives up exactly if it is not |
| `Transport.TransportHandle.Adopt` | lambdas/registrar/fetcher.py:156-163 | adopting raises, with the socket closed, exactly if the fetch was abandoned before |
| `Transport.TransportHandle.Cancel` | lambdas/registrar/fetcher.py:165-169 | cancelling is sticky and closes a registered socket |
| `Transport.CancelledFirstNeverSends` | lambdas/registrar/fetcher.py:151-169 | in every interleaving, if the caller's critical section comes first no request leaves and the exchange never succeeds |
| `Transport.NoSocketIsLeftOpen` | lambdas/registrar/fetcher.py:172-196 | once both sides are done a registered socket has been closed |
| `Transport.AbandonedRequestIsCutOff` | lambdas/registrar/fetcher.py:243-303 | a caller that has gone away leaves no request running on an open socket |
| `Transport.AbandonedConnectionIsClosed` | lambdas/registrar/fetcher.py:172-189 | a caller that gives up closes even a socket that was connected and not yet registered |
| `Transport.BothFinish` | lambdas/registrar/fetcher.py:243-303 | from any point of any interleaving both sides can finish, with success if the caller was still waiting for a worker that had not failed; every action but the hand-over brings them nearer |
| `CimdUrl.SegmentError` | lambdas/shared/cimd_url.py:35-58 | the bounded loop returns the verdict of the recursive judgement, for either decoder |
| `CimdUrl.SegmentAcceptance` | lambdas/shared/cimd_url.py:35-58 | a segment is accepted if and only if it settles within three strictly shortening decodes with every text on the way clean |
| `CimdUrl.AcceptedIsSafeAtEveryDepth` | lambdas/shared/cimd_url.py:38-43 | however often an accepted segment is decoded it is never a dot segment, never has a separator and never a bad escape |
| `CimdUrl.MirrorsAgree` | lib/derive.ts:37-52 | the Python and the TypeScript segment rule return the same verdict on every string |
| `CimdUrl.RawPathsAgree` | lib/derive.ts:26-28 | cutting at the first '?' or '#' and splitting at all of them give the same raw path |
| `CimdUrl.PathRulesAgree` | lib/derive.ts:26-52 | both languages accept the path of exactly the same URLs |
| `CimdUrl.PathError` | lambdas/shared/cimd_url.py:84-87 | the segment loop finds a problem exactly if some segment is refused |
| `CimdUrl.AcceptedUrlIff` | lambdas/shared/cimd_url.py:61-96 | an accepted URL told by its text: https, an authority that passes the host rules, a path of more than a slash with accepted segments, at most a bare '?' and '#' after it, and no control character, space or backslash |
| `CimdUrl.AcceptedUrlNeverTraverses` | lambdas/shared/cimd_url.py:61-96 | however often a segment of an accepted URL is decoded it is never '.' or '..' and never has a slash or backslash |
| `Percent.DecodersAgree` | lambdas/shared/cimd_url.py:52 | Python's unquote over maximal ASCII runs with strict UTF-8 and decodeURIComponent (section 19.2.6 of ECMA-262) compute the same partial function on well-formed text |
| `Percent.PercentRoundTrip` | lambdas/shared/cimd_url.py:52 | in both languages decoding undoes the percent-encoding of the UTF-8 of any text |
| `Utf8.GrammarMatchesShortestForm` | lambdas/shared/cimd_url.py:41-42 | the byte grammar of section 4 of RFC 3629 accepts exactly the shortest-form encodings of scalar values that decodeURIComponent checks for |

## Left out

Assumptions:

- The table scan of `list_clients` is taken as a consistent snapshot; the real scan is paged and not strongly consistent.
- Cognito never hands out an app client id twice, and nobody but the registrar creates rows. Administrators may delete app clients, but between two steps and not inside one.
- An invocation is over, with all its writes, within its timeout, and all clocks are within the stated skew; the waiting loop and the cache see a clock that does not run backwards.
- Hashing and JSON serialisation of the key material are taken as injective; `History.FingerprintsAgreeIff` says what then follows.
- In `System` an iteration carries what the network will answer from its beginning, and its new app client id is fixed then; since it runs alone this is only a way of naming the answers.

Not modelled:

- Host, userinfo and port rules of client identifier URLs, the whole of the redirect-URI rules and the code-challenge pattern are abstract predicates; so are the document checks on members the registrar never stores and on the text of the client name.
- URL parsing by `urlsplit` and WHATWG beyond the path; texts are sequences of Unicode scalar values, so a lone surrogate of a JavaScript string has no counterpart.
- The stored copy of the document itself, client-name sanitising, summary counters, logging and the audit fields of replies.
- Managed-login branding outside the registrar's own calls: it is a field of `CognitoOps`, not part of the step system.
- The `fixture://` row of the development stack, which has no CLIENT row, and rows without an app client id.
- Sockets, TLS, DNS, the automatic reconnect of `http.client`, and the closing thread of `release_connection`; `Transport` keeps the lock-protected handle, the request and who closes what.
- Base64 and JSON decoding, HTTP routing, the making of the CSRF cookie, HTML, `/revoke`, metadata documents and the infrastructure code, which would add only easy members.
- Transport.TransportHandle.Adopt: states the two orders one after the other; interleavings are the business of the step system beside it.
- Freshness.AuthorizedMeansConfirmed: takes the reply as the registrar's own or a failed call, as `Produced` and `Carried` say; a forged reply is outside the model.
- Reconcile.Reconciler.Run: states the staleness bound against the time each URL was visited, not the time the run ends, because the code compares with that time.
- Handler.AcquireWithin: bounds overshoot only when calls take no time, since a slow call can pass the deadline by as much as it likes.
- Gate.GateStaysShutIff: speaks of requests that begin after the visit without keys and of clocks that are not behind the row; the other requests are those of `Timelines.AuthorizedInFlight` and `Gate.ShutAfterKeyless`.
- Rotation.RotationDetectedIff: speaks of a client whose keys have changed for every visit that validates them; one that changes them back in between is not covered.
