# Verified model of the key store services

A Dafny model of the stateful core of the key store daemon and its neighbours, with machine-checked
properties. It covers these parts:

- `KeystoreTypes`, `KeystoreTables`, `KeystoreTx`: the key database as six tables and its transactions as
  functions from tables to tables or an abort.
- `KeystoreInvariants`, `KeystoreClients`: referential integrity, unique aliases, grants, storing and loading,
  limited use keys.
- `KeyLookup`, `KeystoreEffects`: what each call finds, makes, changes and removes, said row by row.
- `GarbageCollector`, `GcChain`, `GcSystem`: the two-phase collector, its termination, and all interleavings of
  clients, notifications and collector steps.
- `AttestationPool`: the pool of remotely provisioned attestation keys.
- `KeyIdLock`: key id guards and loading an entry under them.
- `KeystoreDb`: the database and the collector as objects, statement by statement and loop by loop, each method
  proved against the functions above.
- `AsyncTask`: the two-priority task queue with its on-demand worker and shelf.
- `Enforcements`, `AuthorizationRules`, `DeferredAuth`: the authorisation decision over a parameter list, the rules it
  comes to, and operations that wait for tokens and time stamps of their own.
- `LegacyKeystore`: the legacy entry store that migrates entries while it is used.
- `BootLevelKeys`: the cache of boot level keys, against HKDF-Expand of section 2.3 of RFC 5869.
- `CredentialKeys`, `CredentialFile`: authentication keys of identity credentials, and the credential file at the
  level of the data items of section 2 of RFC 8949.
- `Confirmation`: protected confirmation sessions, rate limiting and callback ownership.
- `AttestationAppId`: the DER budget of the attestation application id, with lengths and integers as in sections
  8.1.3, 8.3 and 10.1 of ITU-T X.690.

Concurrent parts are state machines: an event is one critical section, one transaction or one step of a thread,
and the theorems hold after every sequence of possible events. Where the program updates state in place there is
also a class whose methods follow it; each is proved against the function that the machine uses for that step, on
the fields that the class holds.

Random ids, clocks, permission checks, the answers of hardware services and the success of key expansions are
parameters of the operations. A transaction of the database is one atomic step, except that `KeyIdLock` shows the
ones that take a lock inside as open until they commit; `Tx` records whether a transaction asks for garbage
collection. Assumptions on runs are named predicates: `Enabled` (drawn ids are unused), `Plain` (no
metadata on certificates), `FreshId` (an entry without a key blob does not reuse the id of an uncollected blob),
`RespectsPool` (client calls leave pool keys to the pool operations) and `ChallengesFresh` (an operation challenge
is not repeated while in use). For those that can fail in practice the exact condition and an example are given:
`BareEntryKeepsSafeIff` with `ReusedIdLosesBlob`, `MetadataPlacementIff` with `StrayMetadataIsInherited`,
`CreateKeepsPoolIff` with `RedrawnIdBreaksRetrieval`, and `ForgottenIff` with `RepeatedChallengeStarves`. File
accesses of the legacy store may fail in any run; where a result needs some of them to work it says which.

Properties that do not hold of the program as one might expect are stated with the exact condition under which
they do or fail, and with an input:

- an arm of the authorisation called unreachable: `PanicsIff`, `PanicExample`;
- loading what was stored: `StoreThenLoadIff`, `LeftoverCertificateLoads`;
- reading the key that was checked: `WaiterReadsItsKeyIff`, `RedrawnKeyIsRead`;
- no new entry under a guard: `NoNewEntryUnderGuard`, `SuperKeyUnderGuard`, `PoolKeyUnderGuard`;
- creating a key without waiting for its lock inside the transaction: `WriterBlocksIff`, `HolderAndWriterBlock`;
- a collector that goes on until all is collected: `FailedTransactionStrandsIff`, `FailureAfterRestartStrands`;
- an upgrade that leaves no garbage: `UpgradeIsCleanIff`, `UpgradeAddsSilentGarbage`;
- certifying a key: `StoreCertifiesIff`, `EmptyKeyWipes`;
- reading a credential file: `RoundTripIff`, `LoadCrashesIff`, `CrashExample`;
- a prompt that only its own client aborts: `UnaskedAbortIff`, `CancelEndsAnotherPrompt`, `AskingEndsPrompt`;
- a removed legacy entry that stays away: `RemovedComesBackIff`, `DeleteLeavesIff`, `RemovedComesBack`;
- a legacy entry that is found while it is there: `GetGoesWrongIff`, `GetMissesVisible`;
- attestation ids within their size: `EstimateIff`, `FitsIff`, `TooLargeExample`.

The comment in the authorisation code that calls one arm unreachable, the size estimate for attestation ids, and the
remark that one cannot wait for a key id lock inside a transaction, which calls that create entries do, are the places
where code and comment disagree; the model follows the code.

`dafny verify dfyconfig.toml` checks the whole project.

## Model

| member | source | states |
|---|---|---|
| `KeystoreTables.NextBlobId` | keystore2/src/database.rs:1620-1661 | A new blob row gets an id above every id in use, so the newest row of a slot has the largest id. |
| `KeystoreTables.CurrentBlob` | keystore2/src/database.rs:2492-2548 | The blob loaded for a slot of a key is the newest row of that slot, and there is none exactly when the slot has no rows. |
| `KeystoreTables.TheOne` | keystore2/src/database.rs:2342-2368 | A lookup succeeds exactly with one row; no row is "not found" and several rows are a system error. |
| `KeystoreInvariants.EmptyTablesInv` | keystore2/src/database.rs:877-985 | The empty database satisfies the invariant. |
| `KeystoreInvariants.OpKeepsInv` | keystore2/src/database.rs:1220-3128 | Each of the twenty modelled transactions, committed or aborted and with any metadata, keeps: parameters, metadata and grants refer to existing entries; one grant per key and grantee; client aliases unique. Those that attach no metadata to certificates also keep blob metadata on key blobs only. |
| `KeystoreInvariants.HandleSupersededKeepsInv` | keystore2/src/database.rs:1128-1210 | The collector's transaction keeps the same invariant, whatever ids it is told to delete. |
| `KeystoreInvariants.StoreNewKeyShape` | keystore2/src/database.rs:2231-2287 | Storing a key commits exactly for a nameable domain with an alias and no blob; then only rows of the new id are added, every previous bearer of the alias and no other entry is unbound, and collection is requested exactly when there was one. |
| `KeystoreInvariants.RebindShape` | keystore2/src/database.rs:2110-2158 | Rebinding commits exactly for a nameable domain and an existing entry of that name and type that does not bear the alias already, and else is a system error; it then gives the alias to the entry, makes it live, takes the alias from exactly the entries that had it, and asks for collection exactly when there were any. |
| `KeystoreInvariants.GetOrCreateShape` | keystore2/src/database.rs:1344-1430 | Looking up or creating a super key either changes nothing or adds one entry with one key blob and leaves all other keys alone. |
| `KeystoreInvariants.RemovesExactly` | keystore2/src/database.rs:2736-2950 | Each removing call deletes exactly the selected existing entries with their parameters, metadata and grants, and no blob. |
| `KeystoreInvariants.MigrateInv` | keystore2/src/database.rs:2162-2223 | Moving a key to another name keeps aliases unique because an occupied destination is refused. |
| `KeystoreInvariants.AccessTupleIsLive` | keystore2/src/database.rs:2383-2490 | Whatever the kind of descriptor, a completed access tuple names a live key. |
| `GarbageCollector.OpKeepsKeyBlobs` | keystore2/src/database.rs:1487-3128 | No transaction but the collector's removes or changes a key blob, and entries it adds come with a newer key blob unless they are bare. |
| `GarbageCollector.OpKeepsSafe` | keystore2/src/gc.rs:101-131 | Two-phase safety: with fresh ids for bare entries, every blob id the collector remembers stays superseded or orphaned through any client transaction. |
| `GarbageCollector.BareEntryKeepsSafeIff` | keystore2/src/database.rs:1487-1534 | A transaction that makes an entry without a key blob keeps the collector safe if and only if its id is not that of a remembered blob that is the newest of its slot. |
| `GarbageCollector.CollectionKeepsLoads` | keystore2/src/database.rs:1128-1210 | The collector's transaction never changes which blobs load for a key that is not unreferenced. |
| `GcChain.FetchKeepsSafe` | keystore2/src/gc.rs:101-109 | Fetching a batch deletes only garbage and remembers only garbage. |
| `GcChain.PopKeepsSafe` | keystore2/src/gc.rs:111-115 | Moving a blob from the batch to the list of ids to delete keeps the collector safe. |
| `GcChain.EmptyAnswerMeansClean` | keystore2/src/database.rs:1128-1210 | When the query finds no key blob, the transaction leaves no unreferenced entry and no superseded or orphaned blob of any type. |
| `GcChain.StepIsPossible` | keystore2/src/database.rs:1128-1210 | The database has an answer in every state, so a queued step can always be taken. |
| `GcChain.ChainDrains` | keystore2/src/gc.rs:134-151 | After each step of any chain, finished or not: if the step queued no other, it was step n + 1 with n blobs pending at the start, and all have been handed out once; else every step has taken one blob off what was pending. |
| `GcChain.ChainStops` | keystore2/src/gc.rs:134-151 | A chain that has not stopped can be carried on until it has. |
| `GcChain.ChainStopsClean` | keystore2/src/gc.rs:101-151 | Termination and completeness: with n superseded or orphaned key blobs and no other writers no chain takes more than n + 1 steps and a chain has stopped exactly when it has taken n + 1; it has then handed each blob row to invalidation exactly once and left no garbage. |
| `GcChain.ChainHasEnd` | keystore2/src/gc.rs:101-151 | From a forgetful collector, every chain can be carried on to its end. |
| `GcSystem.QuietOpAddsNoGarbage` | keystore2/src/database.rs:1438-1471 | A transaction that makes a blob or an entry garbage asks for collection, whether or not there was garbage before. |
| `GcSystem.EventKeepsInv` | keystore2/src/gc.rs:77-151 | Every event of clients, notifications and worker, failing collector transactions included, keeps integrity, the pool, collector safety and the match of flag and queue. |
| `GcSystem.NotifiedOncePerCall` | keystore2/src/database.rs:1438-1471 | In every run the notifications made and those still owed are one for each committed call that asked for collection. |
| `GcSystem.EventKeepsCovered` | keystore2/src/gc.rs:77-151 | Every event but a failing collector transaction keeps garbage covered: there is a step to come, or a notification is owed. |
| `GcSystem.RunKeepsInv` | keystore2/src/gc.rs:77-151 | Every run, whatever fails, keeps integrity, the pool, collector safety and the match of flag and queue. |
| `GcSystem.RunKeepsCovered` | keystore2/src/gc.rs:77-151 | Every run without failing collector transactions keeps garbage covered. |
| `GcSystem.RestartIsCovered` | keystore2/src/database.rs:1220-1232 | After a restart with any sound database the invariant holds, and garbage left behind is covered by the notification that the start-up cleanup always asks for. |
| `GcSystem.NoLostWakeUp` | keystore2/src/gc.rs:77-151 | In every run from a restart at most one step is queued or claimed, and if no collector transaction failed and all commits have notified, garbage implies a step claimed, queued or running. |
| `GcSystem.FailedTransactionStrandsIff` | keystore2/src/gc.rs:101-151 | A failing collector transaction strands the garbage there is when its step finishes if and only if no ids to delete were noted, no step was announced, no notification was owed and no call asked for collection in between, whatever run of calls and notifications lies between failure and finish. |
| `GcSystem.AsleepUntilAsked` | keystore2/src/gc.rs:77-99 | From then on only client calls are possible, and the collector sleeps with unchanged memory through every run in which none of them asks for collection. |
| `GcSystem.AskingWakesUp` | keystore2/src/gc.rs:77-99 | The first call that asks for collection covers the garbage again, and notification, queueing and a step follow. |
| `GcSystem.FailureAfterRestartStrands` | keystore2/src/gc.rs:101-151 | Example: after a restart with one orphaned blob a single failed transaction strands it. |
| `GcSystem.OpLeavesKey` | keystore2/src/database.rs:1487-3128 | A transaction that is not about a live client key leaves its entry, parameters, metadata and blob rows unchanged. |
| `GcSystem.RunKeepsKey` | keystore2/src/gc.rs:101-151 | Through every run of clients and collector that leaves a live client key alone, the key loads the same. |
| `AttestationPool.OpKeepsPool` | keystore2/src/database.rs:1541-1843 | Every transaction keeps the pool well formed: at most one assigned key per domain, namespace and instance, one key blob per key, and one certificate and chain exactly for signed keys. |
| `AttestationPool.CollectionKeepsPool` | keystore2/src/database.rs:1128-1210 | Collection never hits a blob of a pool key. |
| `AttestationPool.CreateKeepsPoolIff` | keystore2/src/database.rs:1541-1576 | A new pool key keeps the pool well formed if and only if no blob row of its drawn id is left. |
| `AttestationPool.RedrawnIdBreaksRetrieval` | keystore2/src/database.rs:1541-2103 | Example: an entry is created, given a certificate and removed with its namespace; with that one row left of the drawn id, creating, signing and assigning a pool key all succeed and retrieval then finds four rows where it wants three. |
| `AttestationPool.RetrievalIsComplete` | keystore2/src/database.rs:2025-2103 | Retrieval sees no row when nothing is assigned, else exactly one key blob, one certificate and one chain of one key, so the row count error cannot occur. |
| `AttestationPool.AssignThenRetrieve` | keystore2/src/database.rs:1782-1843 | An assigned key was an unassigned signed one, is then the one key of the namespace, and retrieval finds exactly its rows; other namespaces are unaffected. |
| `AttestationPool.AssembleChain` | keystore2/src/database.rs:2055-2101 | The loop over the rows puts each part in its place whatever the order, and refuses any other number of rows than none or three. |
| `AttestationPool.GetPoolStatus` | keystore2/src/database.rs:1957-2020 | The counters are the sizes of the pool, signed, unassigned and expiring sets, hence unassigned <= attested <= total and expiring <= attested. |
| `KeyLookup.CreatedWaits` | keystore2/src/database.rs:1541-1576 | A pool key is created live without a name, waits under its public key, and holds the private key and the MACed public key it was made with. |
| `KeyLookup.SignedContents` | keystore2/src/database.rs:1709-1780 | Signing reaches the one key that waits under the public key: it alone is marked signed, gets that certificate, chain and expiration date, and keeps its key blob. |
| `KeyLookup.AssignEffect` | keystore2/src/database.rs:1782-1843 | A pool key is assigned if and only if the domain is nameable, a signed free key of the device exists and the namespace has none yet; the one with the smallest id is taken and only its domain and namespace change; else the error says which. |
| `KeyLookup.RetrievedContents` | keystore2/src/database.rs:1782-2103 | The three rows retrieved for a namespace after an assignment hold the key blob, certificate and chain that the assigned key had. |
| `KeyLookup.ExpiredAreRemoved` | keystore2/src/database.rs:1891-1924 | The clean-up removes exactly the pool keys whose expiration date is known and before the given time, and changes no other entry. |
| `KeyLookup.AllPoolKeysAreRemoved` | keystore2/src/database.rs:1928-1953 | Deleting all attestation keys removes exactly the pool keys and changes no other entry. |
| `KeyLookup.SignedUntilExpired` | keystore2/src/database.rs:1709-1924 | A key just signed is removed as expired, and counted as expiring, exactly if the date it was signed with is before that time. |
| `KeyLookup.CountedIff` | keystore2/src/database.rs:1957-2020 | Which keys the pool status counts as present, signed, free and expiring, said on their rows and dates. |
| `KeyLookup.CreateCounts` | keystore2/src/database.rs:1541-2020 | Creating a pool key raises the total of its device by one and changes no other number. |
| `KeyLookup.SignCounts` | keystore2/src/database.rs:1709-2020 | Signing a live key raises the numbers of signed and of free keys by one each, that of expiring ones exactly if its date is earlier, and leaves the total. |
| `KeyLookup.AssignCounts` | keystore2/src/database.rs:1782-2020 | Assigning lowers the number of free keys of the device by one and changes no other number. |
| `KeyLookup.AppLookup` | keystore2/src/database.rs:2383-2406 | An app finds by alias exactly the live client key under its own uid, whatever namespace it gives, with a descriptor that says so and without an access vector; without such a key "not found". |
| `KeyLookup.PolicyLookup` | keystore2/src/database.rs:2383-2406 | In a policy namespace the key found is the live client key under exactly the namespace and alias given, or "not found". |
| `KeyLookup.IdLookup` | keystore2/src/database.rs:2433-2487 | A key id finds exactly a live key; the descriptor carries the domain and namespace of its row; the owning app gets no access vector and anyone else the one granted to them, if any. |
| `KeyLookup.GrantLookup` | keystore2/src/database.rs:2407-2431 | A grant leads exactly its grantee to the live key it is for, with the access it gives; all else is "not found". |
| `KeyLookup.BlobLookup` | keystore2/src/database.rs:2383-2490 | A blob descriptor leads to no entry. |
| `KeyLookup.GrantCommitsIff` | keystore2/src/database.rs:3030-3091 | A grant is made if and only if the caller finds the key and may grant it; else the error is that of the lookup or of the permission check. |
| `KeyLookup.GrantGives` | keystore2/src/database.rs:3030-3091 | Afterwards the grantee reaches that key through the returned id with exactly the access given; an existing grant keeps its id, a new one has the drawn id, and every other grant and table is as before. |
| `KeyLookup.UngrantTakes` | keystore2/src/database.rs:3098-3128 | Withdrawing removes exactly the grants of that key to that grantee, which lead nowhere then, under the same conditions. |
| `KeystoreEffects.UnbindEffect` | keystore2/src/database.rs:2751-2775 | A key is removed if and only if the caller finds it and may remove it; exactly that entry goes, with its parameters, metadata and grants, its blobs stay for the collector, and collection is asked for. |
| `KeystoreEffects.UnbindNamespaceEffect` | keystore2/src/database.rs:2788-2832 | For an app or policy namespace exactly the client keys in it go, in any state; any other domain is an invalid argument. |
| `KeystoreEffects.UnbindUserEffect` | keystore2/src/database.rs:2879-2950 | Exactly the user's live app keys, by uid range, and the user's own super key go, save those not encrypted by another key if asked to; collection is asked for exactly if there was one. |
| `KeystoreEffects.CleanupEffect` | keystore2/src/database.rs:1220-1230 | At start-up exactly the unfinished entries become unreferenced, nothing else changes, and collection is asked for. |
| `KeystoreEffects.UpgradeEffect` | keystore2/src/database.rs:859-875 | The upgrade gives up exactly the keys that have a boot level limit among their parameters and no blob bound to a boot level. |
| `KeystoreEffects.SweepEffect` | keystore2/src/database.rs:1128-1147 | The sweep that begins a collector's transaction removes exactly the blobs it is told to, with their metadata, and the unreferenced entries, with all that refers to them. |
| `KeystoreEffects.CollectEffect` | keystore2/src/database.rs:1128-1210 | After the sweep only certificate rows go, only if there is no key blob to hand out, and exactly those whose key is gone or that a newer row of the same part replaces; no further collection is asked for. |
| `KeystoreEffects.PickedAre` | keystore2/src/database.rs:1149-1180 | It hands out only key blobs whose key is gone or that a newer one replaces, at most as many as asked for, and all of them if they are fewer. |
| `KeystoreEffects.CreateEffect` | keystore2/src/database.rs:1487-1534 | A bare entry, unfinished and without an alias, is added for the two nameable domains and for no other. |
| `KeystoreEffects.RebindEffect` | keystore2/src/database.rs:2110-2159 | An entry is finished under a name if and only if it is unfinished, of that type and in that nameable place, and does not bear the name already; previous bearers are unbound and nothing else changes. |
| `KeystoreEffects.StoreKeyEffect` | keystore2/src/database.rs:2110-2287 | The new entry alone has the name, live; exactly the previous bearers of that name and type lose name, domain and namespace and become unreferenced; collection is asked for exactly if there was one. |
| `KeystoreEffects.StoreCertificateEffect` | keystore2/src/database.rs:2292-2340 | The same for a certificate, with one chain row, the creation date, and no key blob. |
| `KeystoreEffects.StoreCertificateThenLoad` | keystore2/src/database.rs:2292-2340 | Under an id of which no blob is left, it loads as a pure certificate with that chain, date and security level. |
| `KeystoreEffects.SetBlobEffect` | keystore2/src/database.rs:1585-1661 | A blob becomes the newest row, with its metadata; without a blob all rows of a certificate go; removing a key blob this way is refused. |
| `KeystoreEffects.UseEffect` | keystore2/src/database.rs:2580-2619 | The first limit among the parameters decides: zero refuses, one removes the key with all that refers to it, more or less than that takes one from every positive limit; a limit that is no number is a system error. |
| `KeystoreEffects.UnlimitedUse` | keystore2/src/database.rs:2580-2597 | A key without a limit counts as exhausted. |
| `KeystoreEffects.DeletedBlobEffect` | keystore2/src/database.rs:1604-1618 | The blob handed over is a new row that no entry owns, with its metadata, and is garbage for the collector at once. |
| `KeystoreEffects.MoveEffect` | keystore2/src/database.rs:2162-2223 | A key moves if and only if the destination is nameable, permitted, has an alias, is free and the key exists; the first of these that fails decides the error; the key keeps its type, state and security level. |
| `KeystoreEffects.StoreSuperEffect` | keystore2/src/database.rs:1261-1305 | A super key is stored live under the user's namespace, with its blob and both kinds of metadata, and nothing else changes. |
| `KeystoreEffects.SuperKeyIsFound` | keystore2/src/database.rs:1344-1430 | A super key of that name is returned and nothing created; with a second one the call fails. |
| `KeystoreEffects.SuperKeyIsMade` | keystore2/src/database.rs:1344-1430 | Without one, a new entry with the created blob and metadata is added, or the error of the creation passed on. |
| `KeystoreClients.StoreThenLoadIff` | keystore2/src/database.rs:2231-2287 | After a key is stored its alias resolves to it, and it loads with exactly the stored blob, certificates, parameters and metadata if and only if no leftover certificate of a removed key with the same id fills a slot left empty. |
| `KeystoreClients.LeftoverCertificateLoads` | keystore2/src/database.rs:2231-2287 | Example: a key with a certificate is stored under id 7 and removed, a key without one is stored under id 7 before collection, and it loads with the old certificate. |
| `KeystoreClients.StoredKeySurvivesRuns` | keystore2/src/database.rs:2953-2980 | A stored key resolves and loads as stored after every run of clients and collector that leaves it alone. |
| `KeystoreClients.UpdateThenLoad` | keystore2/src/database.rs:1585-1661 | After an update the new key blob and metadata load and the rest of the key as before. |
| `KeystoreClients.UpdateCertificateThenLoad` | keystore2/src/database.rs:1585-1661 | After a certificate is replaced or removed, the new one or none loads and the rest of the key as before. |
| `KeystoreClients.MoveThenLoad` | keystore2/src/database.rs:2162-2223 | A moved key resolves under its new name and no other, and loads as before. |
| `KeystoreClients.UserRangeIsRemoved` | keystore2/src/database.rs:2879-2950 | Removing a user removes a live app key exactly when its namespace is in the uid range of the user and, if keys without super encryption are to be kept, its current key blob names an encryption key; division that truncates also gives user 0 the negative namespaces above -100000. |
| `KeystoreClients.GrantAndKeyIdAgree` | keystore2/src/database.rs:2383-2490 | A grantee who is not the owner gets the same access vector by grant and by key id, and the owner gets none by key id. |
| `KeystoreClients.UnreferencedIsTerminal` | keystore2/src/database.rs:2834-2873 | An unreferenced entry stays unreferenced until it is gone. |
| `KeystoreClients.LostKeyLosesItsGrants` | keystore2/src/database.rs:3030-3128 | A grant on a key that is replaced or removed never resolves again in any later run, even if the key id is reused. |
| `KeystoreClients.UseCountsDown` | keystore2/src/database.rs:2580-2619 | A use succeeds exactly while uses are left, takes one, and the last one removes the key. |
| `KeystoreClients.LimitIsNeverExceeded` | keystore2/src/database.rs:2580-2619 | In every run a key with n uses left is used successfully at most n times. |
| `KeystoreClients.LimitIsReachedExactly` | keystore2/src/database.rs:2580-2619 | A key in use that no call but its uses takes away, and whose id no call draws again, gives exactly the smaller of n and the number of attempts as successes, in every run of clients and collector. |
| `KeystoreClients.MetadataPlacementIff` | keystore2/src/database.rs:1620-1661 | Adding a blob keeps metadata on key blobs if and only if no metadata is attached to a certificate. |
| `KeystoreClients.StrayMetadataIsInherited` | keystore2/src/database.rs:1620-1661 | Example: metadata attached to a certificate survives its removal and ends up on the next blob with the same row id. |
| `KeystoreClients.ReusedIdLosesBlob` | keystore2/src/database.rs:2292-2340 | Example: without fresh ids a certificate entry adopts a blob that the collector then deletes. |
| `KeystoreClients.UpgradeIsCleanIff` | keystore2/src/database.rs:859-875 | The schema upgrade leaves a clean database clean if and only if there is no boot level key without a boot level blob. |
| `KeystoreClients.UpgradeAddsSilentGarbage` | keystore2/src/database.rs:859-875 | Example: the upgrade adds garbage and does not ask for collection. |
| `KeyIdLock.KeyIdLockDb.constructor` | keystore2/src/database.rs:528-530 | No key id is locked at the start. |
| `KeyIdLock.KeyIdLockDb.TryGet` | keystore2/src/database.rs:535-556 | A guard is given exactly when the id was free, and the set of locked ids becomes that of the machine after taking the lock, or stays. |
| `KeyIdLock.KeyIdLockDb.Release` | keystore2/src/database.rs:565-572 | Dropping a guard leaves the locked ids of the machine after the drop. |
| `KeyIdLock.StepKeepsInv` | keystore2/src/database.rs:2652-2734 | Every move of loaders, guards, transactions and calls that lock an id inside their open transaction keeps one guard per id, what each loader has established and what the open transaction works on. |
| `KeyIdLock.RunKeepsInv` | keystore2/src/database.rs:2652-2734 | The same for every interleaving. |
| `KeyIdLock.StartInv` | keystore2/src/database.rs:2652-2734 | Loaders that have not begun, with no id locked, no transaction open and any database, are a good start. |
| `KeyIdLock.LoadsOnlyWhatWasChecked` | keystore2/src/database.rs:2652-2734 | In every interleaving a loaded entry is the one whose id passed the permission check and is live in the reading transaction, even if its alias was rebound while the thread waited. |
| `KeyIdLock.ThereUnlessRedrawn` | keystore2/src/database.rs:2652-2734 | In every interleaving an entry with a given id at the end was either there throughout, with its type and KeyMint instance unchanged, or the id was drawn again on the way. |
| `KeyIdLock.WaiterReadsItsKeyIff` | keystore2/src/database.rs:2652-2734 | What a loader reads after waiting for the guard is the entry that was checked if and only if the id was not drawn again while it waited. |
| `KeyIdLock.RedrawnKeyIsRead` | keystore2/src/database.rs:2652-2734 | Example, from a start: two threads load a key and one waits; the key is removed, the guard dropped, and before the waiting thread wakes its id is drawn, locked and dropped for a key of another app; the thread gets the blob of that key. |
| `KeyIdLock.NoNewEntryUnderGuard` | keystore2/src/database.rs:1503-1534 | While a guard on an id exists, a move brings an entry with that id into being only if the guard is the creating call's own, or the call stores a super key, which takes no lock, or creates a pool key, whose guard goes before the commit. |
| `KeyIdLock.HolderSeesNoRedraw` | keystore2/src/database.rs:519-572 | In every run in which a thread keeps its guard, its id is drawn again if and only if by one of those two calls, and without them an entry that is there at the end was the same one throughout. |
| `KeyIdLock.SuperKeyUnderGuard` | keystore2/src/database.rs:1261-1305 | Example: a super key comes into being under the guard of a thread that asked for its id. |
| `KeyIdLock.PoolKeyUnderGuard` | keystore2/src/database.rs:1541-1576 | Example: a pool key does so between the end of the transaction's closure and the commit. |
| `KeyIdLock.WriterBlocksIff` | keystore2/src/database.rs:1503-1534 | A call that has drawn or found the id to lock can finish its open transaction by itself if and only if no guard on that id exists, and then commits what it computed. |
| `KeyIdLock.NoWriteUntilDropped` | keystore2/src/database.rs:1438-1471 | Otherwise, in every run until the guard it waits for is dropped, no transaction is begun or committed by anyone, so a holder that writes first waits for ever. |
| `KeyIdLock.HolderAndWriterBlock` | keystore2/src/database.rs:1503-1534 | Example, from a start: a thread holds the guard on a key that is removed, its id is drawn, and neither the creator nor any write of the holder can go on. |
| `KeystoreDb.FirstUsableId` | keystore2/src/database.rs:3133-3155 | The retry loop returns the first drawn id that is neither reserved nor taken. |
| `KeystoreDb.Database.constructor` | keystore2/src/database.rs:842-857 | A new database is empty and satisfies the invariant. |
| `KeystoreDb.Database.SetBlobInternal` | keystore2/src/database.rs:1620-1661 | Adds the newest row of a slot with its metadata, or clears a certificate slot, or refuses to clear a key blob. |
| `KeystoreDb.Database.RebindAliasInternal` | keystore2/src/database.rs:2110-2158 | The two updates have the effect of rebinding, and report whether an entry lost the alias. |
| `KeystoreDb.Database.AddParameters` | keystore2/src/database.rs:1672-1693 | The insertion loop appends all parameters of a key in order. |
| `KeystoreDb.Database.CreateKeyEntryInternal` | keystore2/src/database.rs:1503-1534 | Inserts a bare entry for a nameable domain and takes the lock on its id, or has to wait exactly if a guard exists; refuses any other domain without a lock. |
| `KeystoreDb.Database.StoreNewKey` | keystore2/src/database.rs:2231-2287 | Waits, with nothing visible to others, exactly if the key can be stored and a guard on the drawn id exists; else the statements of the transaction together commit the specified tables and leave the id locked, or all is as before. |
| `KeystoreDb.Database.MarkUnreferenced` | keystore2/src/database.rs:2736-2747 | Deletes the entry with its metadata, parameters and grants, and reports whether it existed. |
| `KeystoreDb.Database.UnbindKeysForUser` | keystore2/src/database.rs:2879-2950 | The loop removes exactly the user's keys, sparing those not protected by the user's secret if asked to, and reports whether any was removed. |
| `KeystoreDb.Database.HasPlainKeyBlob` | keystore2/src/database.rs:2933-2943 | Finds out whether the current key blob has no encryption key reference. |
| `KeystoreDb.Database.CheckAndUpdateKeyUsageCount` | keystore2/src/database.rs:2580-2619 | Search and countdown loops amount to one use of the key, with a rollback when no use is left. |
| `KeystoreDb.Database.FindGarbage` | keystore2/src/database.rs:1148-1180 | Returns distinct superseded or orphaned key blobs, as many as asked for or all of them. |
| `KeystoreDb.Database.HandleNextSuperseded` | keystore2/src/database.rs:1128-1210 | Deletes the ids handed in, sweeps unreferenced entries, picks the next batch and purges certificates only when there is none. |
| `KeystoreDb.Database.CleanupUnreferenced` | keystore2/src/database.rs:2834-2873 | Removes all unreferenced entries with everything that refers to them. |
| `KeystoreDb.Database.LoadEntryId` | keystore2/src/database.rs:2342-2368 | The query gives the one live bearer of an alias, or tells none from several. |
| `KeystoreDb.Database.LoadAccess` | keystore2/src/database.rs:2464-2480 | The query gives the access vector of the grantee, if there is a grant. |
| `KeystoreDb.Database.LoadTuple` | keystore2/src/database.rs:2383-2490 | The queries for each kind of descriptor complete the access tuple that the lookup results speak about. |
| `KeystoreDb.Database.Grant` | keystore2/src/database.rs:3030-3091 | Access query, permission check and the update or insertion of the grant together commit the tables that `GrantGives` speaks about or change nothing, and keep integrity. |
| `KeystoreDb.Database.Ungrant` | keystore2/src/database.rs:3098-3128 | Access query, permission check and deletion together commit the specified tables or change nothing. |
| `KeystoreDb.Collector.constructor` | keystore2/src/gc.rs:45-71 | The collector starts with nothing remembered and no step announced. |
| `KeystoreDb.Collector.ProcessOneKey` | keystore2/src/gc.rs:101-131 | Fetches a batch only when the stock is empty, hands out its last blob and notes the id for deletion. |
| `KeystoreDb.Collector.Step` | keystore2/src/gc.rs:134-151 | Keeps the collector safe, queues another step exactly when ids are to be deleted, and stops only with no garbage left. |
| `KeystoreDb.Collector.Drain` | keystore2/src/gc.rs:101-151 | The loop of steps ends by itself, after exactly one more step than there were blobs pending, with no garbage left. |
| `AsyncTask.EveryRun` | keystore2/src/async_task.rs:167-257 | In every run: one worker at a time; per priority, requests equal jobs begun followed by jobs queued; idle callbacks never run twice in a row; the shelf has one owner and equals the completed actions applied in turn to an empty shelf; queued work implies a running worker. |
| `AsyncTask.EventKeepsInv` | keystore2/src/async_task.rs:167-257 | Each event of callers and worker keeps all of that. |
| `AsyncTask.RunAllInOrder` | keystore2/src/async_task.rs:246-252 | Idle functions run in the order they were added, each on the shelf the one before left. |
| `AsyncTask.RunKeepsInv` | keystore2/src/async_task.rs:167-257 | The same from any good state. |
| `AsyncTask.HighBeforeLow` | keystore2/src/async_task.rs:208-237 | While a high priority job asked for has not begun, no further low priority job begins. |
| `AsyncTask.WorkerDrains` | keystore2/src/async_task.rs:203-256 | Left alone, the worker performs everything asked for, in exactly two steps per queued job plus one if it is starting or at work. |
| `AsyncTask.WorkerRetires` | keystore2/src/async_task.rs:206-237 | With nothing to do it calls the idle callbacks once, stops and leaves the shelf behind. |
| `AsyncTask.TaskState.constructor` | keystore2/src/async_task.rs:118-133 | Nothing is queued, no worker runs and there is no shelf. |
| `AsyncTask.TaskState.Queue` | keystore2/src/async_task.rs:167-185 | Appends to the queue of the priority and spawns a worker exactly when none runs. |
| `AsyncTask.TaskState.AddIdleFn` | keystore2/src/async_task.rs:158-165 | Appends an idle callback. |
| `AsyncTask.TaskState.TakeShelf` | keystore2/src/async_task.rs:204-205 | The worker takes the shelf, or an empty one the first time, and leaves none. |
| `AsyncTask.TaskState.Poll` | keystore2/src/async_task.rs:206-237 | Idle callbacks when due, else the first high job, else the first low job, else the shelf goes back and the worker ends. |
| `AsyncTask.Execute` | keystore2/src/async_task.rs:239-252 | A job is applied once; idle callbacks are applied one after the other. |
| `Enforcements.Newest` | keystore2/src/database/perboot.rs:96-104 | The entry found matches and is the newest that does; none is found exactly when none matches. |
| `Enforcements.AuthorizeCreate` | keystore2/src/enforcements.rs:408-700 | The checks and the pass over the parameters compute the decision that `GrantedIff` and its companions characterise. |
| `Enforcements.ReadParams` | keystore2/src/enforcements.rs:470-562 | One pass stops at the first parameter that time forbids, else notes the facts. |
| `Enforcements.CheckPurpose` | keystore2/src/enforcements.rs:429-469 | The purpose loops reject exactly the listed combinations of purpose and algorithm. |
| `Enforcements.FactsMean` | keystore2/src/enforcements.rs:470-562 | Each noted fact holds if and only if a parameter says so; all secure ids are collected. |
| `Enforcements.LastValueCounts` | keystore2/src/enforcements.rs:489-562 | Of several values of one kind the last one counts. |
| `Enforcements.LastValuesNoted` | keystore2/src/enforcements.rs:489-562 | Of a repeated timeout, authenticator type, boot level or user id the last one is taken. |
| `Enforcements.NewestIsLast` | keystore2/src/database/perboot.rs:96-104 | Of several matching tokens received at the same latest time the last in the list is taken. |
| `Enforcements.TimeoutBoundIff` | keystore2/src/enforcements.rs:626-676 | A key with secure ids and a timeout may be used if and only if the other checks pass and some token of a matching id and type is within the timeout or the on-body extension. |
| `Enforcements.TimeoutBoundToken` | keystore2/src/enforcements.rs:626-700 | The token presented then matches a secure id and the type and is fresh, and a time stamp is deferred exactly when required. |
| `Enforcements.NewestDecides` | keystore2/src/enforcements.rs:634-670 | Checking only the newest matching token accepts exactly when some matching token is acceptable. |
| `Enforcements.PerOperationBound` | keystore2/src/enforcements.rs:626-700 | A key with secure ids and no timeout always leaves an authorisation of the operation itself to be awaited, with a time stamp exactly when one is required and the device must be unlocked. |
| `Enforcements.UnboundKeys` | keystore2/src/enforcements.rs:614-700 | A key without secure ids needs no authorisation of its own, and presents a token exactly when the device must be unlocked. |
| `AuthorizationRules.AdmissibleIff` | keystore2/src/enforcements.rs:408-612 | The checks before authentication pass if and only if the rules on purpose, dates, consistency, caller's nonce, device lock and boot level hold; each rule is stated on the parameter list and the device alone. |
| `AuthorizationRules.GrantedIff` | keystore2/src/enforcements.rs:408-700 | The use is granted if and only if these rules hold and, where the key requires an unlocked device or is bound to users with a timeout, some token that stands for its users is within the timeout or, if that is allowed, the device has been worn since; a timeout without users is granted only to a key that needs no authentication. |
| `AuthorizationRules.GrantedWith` | keystore2/src/enforcements.rs:626-700 | What is granted: with a token needed, the newest one that stands for the users, which is young enough; a challenge, a time stamp or nothing is asked for as the key and the request require. |
| `AuthorizationRules.DeniedInOrder` | keystore2/src/enforcements.rs:429-612 | A purpose that does not fit decides the error before all else; with purpose and dates in order, the first of the remaining rules that fails, in the order of the code, gives its own error. |
| `AuthorizationRules.FirstDateDecides` | keystore2/src/enforcements.rs:509-530 | With a fitting purpose and dates that are not kept, the first of them in the list decides the error before any other rule. |
| `AuthorizationRules.DeniedForWantOfUser` | keystore2/src/enforcements.rs:626-670 | With all rules kept and no fitting token the error is "not authenticated", except that a newest token of unknown age is a system error. |
| `AuthorizationRules.KeylessIsGranted` | keystore2/src/enforcements.rs:408-428 | A use without a key of the database is granted with nothing attached. |
| `AuthorizationRules.LockedDeviceIsRefused` | keystore2/src/enforcements.rs:598-603 | Example: a key that needs an unlocked device is refused while the device is locked. |
| `Enforcements.Attachments` | keystore2/src/enforcements.rs:543-551 | The key id for counting uses and the confirmation channel are attached exactly when the key asks for them. |
| `Enforcements.PanicsIff` | keystore2/src/enforcements.rs:614-676 | The arm said to be unreachable is reached if and only if all other checks pass and there is a timeout but no secure id, no NO_AUTH_REQUIRED and no UNLOCKED_DEVICE_REQUIRED. |
| `Enforcements.PanicExample` | keystore2/src/enforcements.rs:672-676 | Example: a signing key with a timeout and nothing else. |
| `Enforcements.SuperEncryptionRequired` | keystore2/src/enforcements.rs:764-798 | The first boot level wins, then the screen lock, then the lock screen secret, the latter two for apps only, and none if opted out. |
| `Enforcements.TokensForIff` | keystore2/src/enforcements.rs:809-852 | There is an answer if and only if some token of the user is usable, by its challenge or by its age, and the clock gives a time stamp; it is the newest token with the challenge, or else the newest young enough. |
| `DeferredAuth.PerOperationKeysNeedOwnToken` | keystore2/src/enforcements.rs:339-366 | In every run an operation on a key with secure ids and no timeout gets past the hooks only with a token that carries the challenge of the operation. |
| `DeferredAuth.AuthorizedByOwnToken` | keystore2/src/enforcements.rs:339-366 | That token came in after the challenge was given out. |
| `DeferredAuth.TokensAreKept` | keystore2/src/enforcements.rs:339-366 | Once tokens have been returned, every later call in any run returns the same ones. |
| `DeferredAuth.OneTokenOneOperation` | keystore2/src/enforcements.rs:178-190 | No token serves two operations, not even one after the other. |
| `DeferredAuth.EventKeepsInv` | keystore2/src/enforcements.rs:178-366 | Every event keeps tokens, receivers and requests matched by challenge and the cleanup counter between 1 and 26; time stamps are in `EventStamps`. |
| `DeferredAuth.RunKeepsInv` | keystore2/src/enforcements.rs:178-366 | The same for every run; requests keep their identity and arrivals are only added. |
| `DeferredAuth.EventStamps` | keystore2/src/enforcements.rs:88-112 | Every event keeps: a stamp held for an operation was sent for its own request, only operations that need a stamp wait for one, and a token found beforehand stays with its operation. |
| `DeferredAuth.StampedByOwnAnswer` | keystore2/src/enforcements.rs:92-112 | In every run, tokens handed to an operation carry a time stamp if and only if its key needs one, and then the one answered to its own request; a token found beforehand is the one handed out. |
| `DeferredAuth.StampLetsProceed` | keystore2/src/enforcements.rs:92-112 | A waiting operation with a token proceeds, with that token and stamp, when its stamp arrives, and not before. |
| `DeferredAuth.FinalizedWaits` | keystore2/src/enforcements.rs:257-274 | An operation whose token was found but needs a time stamp makes a request that holds the token and waits. |
| `DeferredAuth.RunForgetsNone` | keystore2/src/enforcements.rs:192-203 | With challenges not reused while in use, every waiting operation stays listed until a token is handed to it, across all cleanups. |
| `DeferredAuth.TokenReachesItsOperation` | keystore2/src/enforcements.rs:178-219 | A token with the challenge of a waiting operation is delivered to it, and without a time stamp the next call succeeds with it. |
| `DeferredAuth.RunKeepsSingleUse` | keystore2/src/enforcements.rs:178-219 | In every run no request is handed two tokens, and one that is still listed has had none. |
| `DeferredAuth.BadStampIsFinal` | keystore2/src/enforcements.rs:92-112 | A failed time stamp costs an operation its one token, whether it had to wait for the token or only for the time stamp: no later call in any run succeeds. |
| `DeferredAuth.ForgottenIff` | keystore2/src/enforcements.rs:192-203 | Of all events, exactly the registration of the same challenge for another operation makes a waiting operation drop off the list without a token. |
| `DeferredAuth.ForgottenForGood` | keystore2/src/enforcements.rs:178-203 | An operation that has dropped off gets no tokens in any further run. |
| `DeferredAuth.RepeatedChallengeStarves` | keystore2/src/enforcements.rs:178-203 | Example: two operations are given the same challenge, the token goes to the second, and the first never gets one. |
| `DeferredAuth.TokenReceiverMap.constructor` | keystore2/src/enforcements.rs:165-169 | The map starts empty with the counter at 26. |
| `DeferredAuth.TokenReceiverMap.Take` | keystore2/src/enforcements.rs:178-185 | Takes the receiver of a challenge out of the map. |
| `DeferredAuth.TokenReceiverMap.Add` | keystore2/src/enforcements.rs:192-203 | Adds a receiver, counts down, and at zero drops obsolete receivers only. |
| `DeferredAuth.RequestCell.constructor` | keystore2/src/enforcements.rs:70-86 | A request starts as given. |
| `DeferredAuth.RequestCell.AddAuthToken` | keystore2/src/enforcements.rs:88-90 | Sets the token. |
| `DeferredAuth.RequestCell.GetAuthTokens` | keystore2/src/enforcements.rs:92-112 | Takes the token, then the time stamp if one is due. |
| `LegacyKeystore.LooksLikeOneMap` | keystore2/legacykeystore/lib.rs:308-389 | While file accesses work, every step changes the one visible map as its call says: a put at its key, a remove at its key, a deletion by the entries it has got to so far; migration steps change nothing. |
| `LegacyKeystore.LooksLikeOneMapIff` | keystore2/legacykeystore/lib.rs:308-492 | In every state that failing file accesses can lead to, a step has that effect if and only if no file it was to be rid of is left and no file it copies is out of date; a put always has its effect. |
| `LegacyKeystore.StepIsSomeonesCall` | keystore2/legacykeystore/lib.rs:308-492 | In every state that failures can lead to, a step that no file spoils makes an entry disappear only while a call to remove it, or a deletion meant for its uid, is under way, and makes one appear or change only for a put of that value. |
| `LegacyKeystore.GetMissesNothing` | keystore2/legacykeystore/lib.rs:308-324 | In every run in which no attempt to move that entry fails, get reports an entry missing only if it was not visible at some moment of the call; other files may fail and deletions may leave files behind. |
| `LegacyKeystore.GetGoesWrongIff` | keystore2/legacykeystore/lib.rs:308-324 | In any run, an entry visible all along is reported missing if and only if the worker found neither its file nor a trace of having moved it. |
| `LegacyKeystore.GetMissesVisible` | keystore2/legacykeystore/lib.rs:308-454 | Example: while a get waits, a put fails to move the entry and a deletion removes the file; the get reports it missing although it was visible all along. |
| `LegacyKeystore.ListIsBounded` | keystore2/legacykeystore/lib.rs:380-389 | In every run, whatever fails, list names every entry with the prefix visible throughout the call and none without it or never visible during the call. |
| `LegacyKeystore.AnswersAgreeIff` | keystore2/legacykeystore/lib.rs:308-348 | Whatever fails, a value returned by get agrees with the visible map at that moment; the outcome of remove does if and only if the entry is not in its file alone, which takes a failure of that remove. |
| `LegacyKeystore.RemovedComesBackIff` | keystore2/legacykeystore/lib.rs:335-348 | After a remove the entry is visible, as in its file, if and only if the file survived, which takes a failure of that remove; else it stays away in every further run without a put for it, whatever fails. |
| `LegacyKeystore.RemovedComesBack` | keystore2/legacykeystore/lib.rs:335-348 | Example: a remove whose file cannot be removed reports success, and a get afterwards returns the entry. |
| `LegacyKeystore.DeleteLeavesIff` | keystore2/legacykeystore/lib.rs:350-378 | After a deletion an entry of the uid or user is left if and only if its file survived, which takes a failure of that deletion; without one neither store holds any. |
| `LegacyKeystore.DeleteReaches` | keystore2/legacykeystore/lib.rs:152-170 | A deletion of a user empties exactly the 100000 uids of that user, one of a uid exactly that uid, apart from files that survive; every other visible entry is unchanged. |
| `LegacyKeystore.NamespaceStandsFor` | keystore2/legacykeystore/lib.rs:350-370 | The uid a namespace stands for: the low 32 bits of an app namespace, the Wi-Fi uid for the Wi-Fi namespace, and none for any other. |
| `LegacyKeystore.DeletedStaysDeleted` | keystore2/legacykeystore/lib.rs:441-492 | A scope with nothing in either store stays so in every run without a put into it, whatever migrations are under way and whatever fails. |
| `LegacyKeystore.NamespaceStaysEmpty` | keystore2/legacykeystore/lib.rs:350-378 | After a namespace of an app, or the WIFI namespace, has been deleted without a failure, neither store holds an entry of the uid it stands for, in every further run without a put there. |
| `LegacyKeystore.EventKeepsInv` | keystore2/legacykeystore/lib.rs:401-492 | While file accesses work, every step of clients and worker keeps stores, worker and each call consistent. |
| `LegacyKeystore.RunKeepsInv` | keystore2/legacykeystore/lib.rs:401-492 | The same for every run in which they work. |
| `LegacyKeystore.EventKeepsSound` | keystore2/legacykeystore/lib.rs:401-492 | Whatever fails, every step keeps moved files gone, calls for which nothing failed free of files left behind, and listings bounded. |
| `LegacyKeystore.RunKeepsSound` | keystore2/legacykeystore/lib.rs:401-492 | The same for every run. |
| `LegacyKeystore.ProfileStore.constructor` | keystore2/legacykeystore/lib.rs:391-399 | Nothing has been imported at the start. |
| `LegacyKeystore.ProfileStore.GetLegacy` | keystore2/legacykeystore/lib.rs:423-439 | Moves the entry of one key if there is one, or stops where the copy or the removal of the file fails; files and rows that agree keep the visible map. |
| `LegacyKeystore.ProfileStore.BulkDelete` | keystore2/legacykeystore/lib.rs:441-471 | The loop removes exactly the files in scope that can be removed and passes over the others. |
| `LegacyKeystore.ProfileStore.GetEntry` | keystore2/legacykeystore/lib.rs:308-324 | Undisturbed, get returns what the visible map holds, or fails exactly if it needs the file and something fails. |
| `LegacyKeystore.ProfileStore.PutEntry` | keystore2/legacykeystore/lib.rs:326-333 | Undisturbed, put updates the visible map at one key whatever becomes of the file. |
| `LegacyKeystore.ProfileStore.RemoveEntry` | keystore2/legacykeystore/lib.rs:335-348 | Undisturbed, remove deletes one key from the visible map and reports whether it was there, except that an entry whose file survives is left as in the file. |
| `LegacyKeystore.ProfileStore.DeleteNamespace` | keystore2/legacykeystore/lib.rs:350-370 | Undisturbed, deletion of a namespace removes exactly the entries of the uid it stands for from the visible map, except those whose files cannot be removed, and does nothing for other namespaces. |
| `LegacyKeystore.ProfileStore.ListEntries` | keystore2/legacykeystore/lib.rs:380-389 | Undisturbed, list returns the visible names with the prefix, each once, in ascending order. |
| `BootLevelKeys.StepRefines` | keystore2/src/boot_level_keys.rs:149-216 | Every request, with expansions failing at any point, keeps each cached key equal to the recursively derived one and never lowers the current level. |
| `BootLevelKeys.ExpandsAsNeeded` | keystore2/src/boot_level_keys.rs:158-178 | A lookup keeps what is cached and expands exactly the keys missing up to the level, or as many as expansions succeed. |
| `BootLevelKeys.ReplyRefines` | keystore2/src/boot_level_keys.rs:158-235 | A request for a level is answered with the derived key, or with none exactly when the level is out of reach, or fails exactly when too few expansions succeed. |
| `BootLevelKeys.RunRefines` | keystore2/src/boot_level_keys.rs:126-236 | The same for every run. |
| `BootLevelKeys.AnsweredWithItsKey` | keystore2/src/boot_level_keys.rs:218-235 | After every run a level that is answered at all is answered with its one key. |
| `BootLevelKeys.DroppedForGood` | keystore2/src/boot_level_keys.rs:182-216 | Levels below one advanced to, and all levels after finishing, have no key after any further run. |
| `BootLevelKeys.StaysInReach` | keystore2/src/boot_level_keys.rs:149-154 | A level stays in reach until it is passed or everything is dropped. |
| `BootLevelKeys.BootLevelKeyCache.constructor` | keystore2/src/boot_level_keys.rs:142-146 | The cache starts at level zero with the given key. |
| `BootLevelKeys.BootLevelKeyCache.GetHkdfKey` | keystore2/src/boot_level_keys.rs:158-178 | The loop expands just the missing keys, keeps those made before a failure, and returns the derived key. |
| `BootLevelKeys.BootLevelKeyCache.AdvanceBootLevel` | keystore2/src/boot_level_keys.rs:182-210 | Drops the keys below the new level, or nothing if the level is out of reach or an expansion fails. |
| `BootLevelKeys.BootLevelKeyCache.FinishBoot` | keystore2/src/boot_level_keys.rs:214-216 | Drops all keys. |
| `BootLevelKeys.BootLevelKeyCache.GetAesKey` | keystore2/src/boot_level_keys.rs:218-235 | Returns the key expanded from the level key. |
| `CredentialKeys.ChoiceIff` | identity/CredentialData.cpp:506-561 | A key is selected if and only if a usable one exists; it is least used among the unexpired usable ones, and expired exactly when no unexpired one is usable. |
| `CredentialKeys.EveryUseIsGiven` | identity/CredentialData.cpp:540-561 | Whatever the use counts, with keys unexpired and exhausted ones disallowed exactly as many requests succeed as uses are left in all certified slots; use counts within one of each other stay so. |
| `CredentialKeys.FreshKeysGiveAllUses` | identity/CredentialData.cpp:506-561 | From n certified, unexpired, unused keys with limit m and exhausted keys disallowed, exactly the first n * m requests succeed. |
| `CredentialKeys.RenewalGivesAllUses` | identity/CredentialData.cpp:563-613 | After all pending keys have been certified, every slot gives all its uses. |
| `CredentialKeys.StoreAllReaches` | identity/CredentialData.cpp:597-613 | With distinct pending keys, storing data for each of them reaches each slot once. |
| `CredentialKeys.StoreCertifiesIff` | identity/CredentialData.cpp:597-613 | Storing data puts a certified key in use if and only if the given key is not empty; the slot then holds that key with the pending blob, date and data, unused and with nothing pending, and no other slot changes. |
| `CredentialKeys.EmptyKeyWipes` | identity/CredentialData.cpp:597-613 | Example: the empty key matches a slot without a pending key and wipes the key in use. |
| `CredentialKeys.AskingAgain` | identity/CredentialData.cpp:563-595 | Asking again at any later time before anything is signed gives the same certificates and generates nothing, except for the slots that expired in between. |
| `CredentialKeys.LacksKeyIff` | identity/CredentialData.cpp:564-596 | A new key is generated for a slot if and only if none is pending and the one in use is missing, used up or expired, which is exactly if it could not be selected without allowing used up or expired keys. |
| `CredentialKeys.CredentialSlots.constructor` | identity/CredentialData.cpp:51-54 | No slots, and a limit of one use. |
| `CredentialKeys.CredentialSlots.SetAvailableAuthenticationKeys` | identity/CredentialData.cpp:482-496 | Notes both numbers; keeps the leading slots and fills up with empty ones, or for a negative number throws with the slots untouched. |
| `CredentialKeys.CredentialSlots.FindAuthKey` | identity/CredentialData.cpp:506-538 | The loop finds the first least used eligible slot, unless it is exhausted and that is not allowed. |
| `CredentialKeys.CredentialSlots.SelectAuthKey` | identity/CredentialData.cpp:540-561 | Prefers unexpired keys and counts one use of the chosen slot only. |
| `CredentialKeys.CredentialSlots.GetAuthKeysNeedingCertification` | identity/CredentialData.cpp:563-595 | Gives each slot in need a pending key and lists the pending certificates in order; a failing generator stops the loop and the work before it stays. |
| `CredentialKeys.CredentialSlots.StoreStaticAuthenticationData` | identity/CredentialData.cpp:597-613 | Certifies the first slot with the given pending key. |
| `CredentialFile.RoundTripIff` | identity/CredentialData.cpp:78-140 | What is written is read back the same, whatever was in memory and in whatever order entries come, if and only if it has data, a certificate and as many keys as stated; else it is refused. |
| `CredentialFile.OldFormatLoads` | identity/CredentialData.cpp:173-207 | Keys written without an expiration date read back with the latest possible one. |
| `CredentialFile.LoadCrashesIff` | identity/CredentialData.cpp:173-421 | Loading a file dereferences a missing number if and only if a field of authentication keys holds, after readable keys only, one whose six fields have the right types and whose seventh is not a number, and all fields before it are readable. |
| `CredentialFile.KeysOutcome` | identity/CredentialData.cpp:173-207 | A list of keys is read if and only if each has six fields of the right types and no such seventh, and crashes if and only if the first that is not readable is such a one. |
| `CredentialFile.CrashExample` | identity/CredentialData.cpp:191-197 | Example: a file with one key of six empty or zero fields and a byte string as the seventh. |
| `CredentialFile.EntriesRoundTrip` | identity/CredentialData.cpp:101-117 | Entries survive in any order of writing. |
| `CredentialFile.AuthKeysRoundTrip` | identity/CredentialData.cpp:121-135 | Keys survive in order. |
| `CredentialFile.ProfilesRoundTrip` | identity/CredentialData.cpp:87-99 | Access control profiles survive in order. |
| `CredentialFile.LoadFromDisk` | identity/CredentialData.cpp:247-421 | The loop over the fields reads the file. |
| `CredentialFile.ReadAuthKeys` | identity/CredentialData.cpp:370-385 | The loop over the keys stops at the first that does not parse. |
| `CredentialFile.ReadEntries` | identity/CredentialData.cpp:321-368 | The loop over the entries stops at the first that does not parse. |
| `Confirmation.EveryRun` | keystore2/src/apc.rs:212-350 | In every run: one session at a time; each callback is freed exactly once unless its session is open; the callback about to be called is that of the open session; each other prompt was completed once, towards its own client; penalised prompts of a client are spaced by the back-off. |
| `Confirmation.EventKeepsInv` | keystore2/src/apc.rs:212-354 | Each prompt, result, service death, callback, cancellation, abort reaching the service, question whether the service is there and passing of time keeps this. |
| `Confirmation.RunKeepsInv` | keystore2/src/apc.rs:212-350 | The same from any good state. |
| `Confirmation.AtMostOneADay` | keystore2/src/apc.rs:137-157 | From the seventeenth on, penalised prompts of one client start more than a day apart. |
| `Confirmation.BackOffGrows` | keystore2/src/apc.rs:137-157 | The back-off never decreases, is at least 30 seconds from the third penalty on, doubles from the sixth to the sixteenth and never exceeds a day. |
| `Confirmation.RemainingIsExact` | keystore2/src/apc.rs:137-157 | The back-off time reported as remaining is exactly the time to wait; a clock behind the start of the back-off counts as being at its start. |
| `Confirmation.CallBackSettles` | keystore2/src/apc.rs:212-266 | Every callback ends the session and reports once to its client; exactly a prompt declined, or aborted by its own client, adds a penalty dated by the session's start; a confirmation clears the account and forwards its token; no other client's account changes. |
| `Confirmation.FinalizeHands` | keystore2/apc_compat/apc_compat.cpp:114-128 | The first result of a prompt takes its callback along with the result code, and a token only with a confirmation; any further result does nothing. |
| `Confirmation.ShownIff` | keystore2/src/apc.rs:268-327 | A prompt is shown if and only if none is, the service is there and accepts, and after three or more penalties the wait since the last one is over; a prompt the service refuses has its callback freed at once. |
| `Confirmation.CancelReaches` | keystore2/src/apc.rs:329-350 | A cancel marks the open prompt and sends one abort if and only if the prompt is the caller's own, and otherwise changes nothing. |
| `Confirmation.DeclinedThriceWaits` | keystore2/src/apc.rs:137-157 | Example: from the start, after three declined prompts a fourth is shown if and only if more than 30 seconds have passed. |
| `Confirmation.AbortEndsOtherIff` | keystore2/src/apc.rs:329-350 | An abort ends a prompt other than the cancelled one if and only if the cancelled one had been completed and another one is shown by the time the abort gets to the service. |
| `Confirmation.UnaskedAbortIff` | keystore2/src/apc.rs:329-354 | Of all events, a shown prompt that its client has not cancelled is ended by an abort if and only if the abort of a completed prompt comes late or anyone asks whether the service is there. |
| `Confirmation.AskingEndsPrompt` | keystore2/apc_compat/apc_compat.cpp:196-202 | Example: client 2 is prompted, someone asks whether the service is there, and the prompt is reported aborted. |
| `Confirmation.OtherClientIsNotPenalised` | keystore2/src/apc.rs:212-266 | The client whose prompt is ended in either of these ways is told it was aborted, once, and is not penalised. |
| `Confirmation.CancelEndsAnotherPrompt` | keystore2/src/apc.rs:329-350 | Example: client 1 cancels, is answered, client 2 is prompted, and only then the abort arrives. |
| `Confirmation.CompatSession.constructor` | keystore2/apc_compat/apc_compat.cpp:164-165 | No callback is held. |
| `Confirmation.CompatSession.PromptUserConfirmation` | keystore2/apc_compat/apc_compat.cpp:76-110 | Holds the callback exactly if none was held and the service accepts. |
| `Confirmation.CompatSession.Take` | keystore2/apc_compat/apc_compat.cpp:114-128 | Only the first of several callers gets the callback; slot and pending callbacks become those of the machine after the result. |
| `Confirmation.ApcManager.constructor` | keystore2/src/apc.rs:189-191 | No session and no penalties. |
| `Confirmation.ApcManager.Admit` | keystore2/src/apc.rs:276-294 | A prompt is admitted if and only if no session is open and more than the back-off has passed since the last penalised prompt. |
| `Confirmation.ApcManager.PresentPrompt` | keystore2/src/apc.rs:268-327 | Checks, the call of the service and the session noted add up to the step of the machine; the session is noted exactly when the prompt is shown. |
| `Confirmation.ApcManager.CancelPrompt` | keystore2/src/apc.rs:329-350 | Only the owner of the session marks it aborted and gets an abort to send, as in the machine. |
| `Confirmation.ApcManager.Result` | keystore2/src/apc.rs:212-266 | Closes the session, reports once to its client, and changes rates as the step that `CallBackSettles` speaks about. |
| `AttestationAppId.NeverTooLarge` | keystore/keystore_attestation_id.cpp:198-272 | What the loops push from packages with a name of at most 114 bytes or a version below 2^39 encodes to at most 1024 bytes, in any order of the sets, and the hand-over accepts it. |
| `AttestationAppId.FitsIff` | keystore/keystore_attestation_id.cpp:198-272 | For any packages, the encoding of what is pushed fits if and only if a sum over name lengths and version sizes does; the hand-over then accepts exactly a buffer of 1024 bytes, and otherwise reports a lack of memory. |
| `AttestationAppId.EstimateIff` | keystore/keystore_attestation_id.cpp:89-92 | The estimate of one package bounds its encoding if and only if name length and version size are in the table. |
| `AttestationAppId.TooLargeExample` | keystore2/aaid/aaid.cpp:23-42 | Example: five packages with names of 186 and 187 bytes and version -1 pass the estimate, encode to 1028 bytes and are refused for lack of memory at the hand-over. |
| `AttestationAppId.WithinBudget` | keystore/keystore_attestation_id.cpp:113-119 | If each package is within its estimate the whole is at most 1020 bytes. |
| `AttestationAppId.OrderDoesNotMatter` | keystore/keystore_attestation_id.cpp:116-119 | The order in which a set is written does not change its size. |
| `AttestationAppId.IntBytesExact` | keystore/keystore_attestation_id.cpp:170-183 | Version contents are the shortest that stand for the number. |
| `AttestationAppId.IntBytesLength` | keystore/keystore_attestation_id.cpp:170-183 | A version takes at most k bytes if and only if it is below 128 * 256^(k-1). |
| `AttestationAppId.NameErrorIff` | keystore/keystore_attestation_id.cpp:208-218 | A package without a name is a bad value, and exactly the one named com.google.android.gms is rate limited. |
| `AttestationAppId.Build` | keystore/keystore_attestation_id.cpp:198-264 | The loops push the longest prefix of packages within the estimate, no digests if a package was left out and else as many as fit; they refuse an empty list, or else with the status of the first package among those looked at that is unnamed or barred. |

## Left out

- SQL text, connection handling, retries on a busy database and schema creation: a transaction is atomic and its statements are functions on tables.
- Row order of queries without ORDER BY: a query result is a set, or any enumeration of it.
- The integer width of counters that would take 2^32 penalised prompts or uses to overflow (`rate_info.counter`, `useCount`).
- Panicking jobs, weak memory ordering of the `notified` flag and fairness of the scheduler: jobs are total functions on the shelf and safety and bounded progress are proved, not eventual delivery by hardware services.
- KeyIdLock.KeyIdLockDb.TryGet: the blocking acquisition is one pass of its loop, because the wait has no bound; the interleavings are in the state machine, where readers see the last commit while a transaction is open.
- KeystoreDb.Database: moving, certificate-only storing, super key and pool operations are modelled as transactions only, since their statements add no loop.
- Confirmation: the confirmation tokens that wait in a channel until an operation is finished, and the content of prompts.
- CredentialFile.RoundTripIff: numbers are within the widths of their fields and items are not encoded to bytes, which is the work of the CBOR library.
- Keys of entries are the joined strings; that joining namespace and name with a colon is not injective is not stated.
- AttestationAppId.Build: failing allocations and the hashing of signatures are left out; digests come in as byte strings, and elements of a set are sorted by the encoder, which `OrderDoesNotMatter` covers.
- LegacyKeystore: failures of the database outside the moving of an entry, a `list` that cannot list the files, and effective uid checks.
- BootLevelKeys: where the level zero key comes from.
- Key parameter conversion, error code tables, binder plumbing, metrics, command line tools and the old keystore: flat or input/output code.
