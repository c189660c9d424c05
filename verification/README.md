# Verified model of the GophKeeper client and server

This project models the core of an end-to-end encrypted, offline-first secret store and proves what it promises:

- **the sync protocol** between a server with optimistic locking and a client with a three-tier cache, an outbox of
  offline writes, a replay, a freshness-driven pull and a conflict resolver;
- **the blob codec**, which cuts a file into sealed chunks, frames them, and streams them over messages of any size;
- **the key envelope**: one random MasterKey under passphrase, PIN and recovery codes, with keys wiped in place;
- two arithmetic cores of the user interface: the column allocator and the card number check.

## How it is built

| files | what they hold |
|---|---|
| `Types`, `Sealing` | shared values; the three tiers, their sealing and their associated data |
| `ServerModel`, `ServerLaws`, `Database` | requests as functions on tables, what runs of them keep, the SQL statements and transactions as a class |
| `Isolation` | users do not meet on the server |
| `StoreModel`, `StoreLaws`, `LocalStore` | the client's cache and outbox, likewise |
| `ClientModel`, `Client` | every client operation as a function on a world, and as methods with the loops of the source |
| `Coherence`, `Freshness`, `FreshOperations`, `VaultListing`, `StagedSync`, `Runs` | the two invariants of the cache, operation by operation and over runs; what a listing of the vaults caches |
| `CatchingUp`, `ListedSecrets`, `PullReports` | a pull that nothing disturbs brings the cache up to date; what the list then shows; what a pull reports |
| `Reading`, `Writing` | what the readers return; what a write reports, and that the readers then show it |
| `Accounting`, `AccountedOperations`, `QueueRuns` | what becomes of every queued operation, operation by operation and over runs |
| `ReplayLaws`, `ReplayResults`, `BlockedQueue` | what a replay conserves, what it reports and where it is stuck |
| `OfflineChain`, `InterruptedChain`, `SelfConflict` | what offline edits of a secret that nobody else touches end in, with and without replays between them |
| `ConflictLaws`, `OvertakenCards`, `ResolveReports` | how conflicts progress, also after a pull; what "resolved" means |
| `Bytes`, `StreamModel`, `StreamLaws`, `StreamIntegrity`, `BlobTransport`, `StreamCodec` | the blob codec and its transport |
| `AadFormat`, `BinaryTransfer` | the printed associated data; upload and download of a file |
| `KeyModel`, `KeyLaws`, `KeyAccess`, `KeySession`, `KeyEnvelope`, `RecoveryCode` | the key envelope |
| `Columns`, `Luhn` | the arithmetic cores |

The state-changing methods of the classes (`Database`, `LocalStore`, `Client`, `Session`, `Auth`) are proved equal to
the functions of the model modules; the laws are proved about those functions, so they hold of the methods.

Cryptography is ideal. In the protocol a ciphertext carries key, nonce, associated data and plaintext and opens only on
an exact match (the interface of sections 2.1 and 2.2 of RFC 5116). In the codec, where bytes matter, a ledger records
every sealing and nothing else opens. Key derivation is injective.

Other devices and the network come in as a tape: before each call of the client any requests of other devices may run,
and each call may arrive, stay undelivered, or take effect and still end in an error of any kind. Client operations are
atomic with respect to each other, not with respect to the server. Randomness, user input, staged files and clocks are
parameters.

## What the code does that its comments do not say

- `decodeStream` accepts an encoding that is followed by one bare four-byte length header: the wrapped `io.EOF` passes
  for the end of the stream (`internal/client/usecase/secret/frame.go:33-35`). Nothing wrong is written;
  `StreamIntegrity.TrailingBytes` gives the exact set of accepted inputs.
- A blob is sealed under version 1 but opened under the cached version, so a file cannot be downloaded any more once
  its secret was edited. `BinaryTransfer.DownloadGivesTheFile` is the exact condition, `EditedBinaryIsLost` a concrete
  case.
- If reading the file fails during an upload, the pipe is closed all the same and the server stores a stream without
  its last chunk; the caller gets the error, and no download of that object ends well.
- Taking the server's side of a conflict after a later pull can put an older version back into the cache.
  `OvertakenCards.TakingIsSafeIff` says exactly when, in terms of what the client holds; `OvertakenCardRewinds` is a
  concrete run. The entry of the conflict stays in the outbox.
- The outbox protects a secret from the pull but not from the index loads that the staged pull puts behind it: a row
  that a replay has cleaned gets an index although a later edit of it still waits.
  `StagedSync.StagedTouchesOutstandingIff` says exactly when, `StagedSync.OutstandingRowIsFilled` is a concrete case.
  The index fits the row's version, so both invariants survive.
- A user who is alone can meet a conflict with himself. A replay takes the cached row back to the version of each
  entry that it plays; if it is interrupted halfway through the edits of a secret, the next offline edit takes a base
  that an entry still in the queue has as well. `InterruptedChain.ReplayRewindsIff` says after which replays the cache
  is rewound, `OfflineChain.EditLinksIff` which edits then fit, and `InterruptedChain.MisfitConflicts` what becomes of
  one that does not; `SelfConflict.AloneInConflict` is a concrete run. `SelfConflict.HowItEnds` shows more: the row is
  then cached clean, under the server's version, with the payload of the edit that the server refused, since the upsert
  keeps the loaded tiers at an equal version.
- If the answer to a replayed write is lost, the entry stays in the queue although the server has taken it, and can only
  be refused from then on (`InterruptedChain.ReplayLinksIff`).
- A vault that the server lists for the first time is cached with its synchronisation switched off, both by the pull
  (`CatchingUp.PullCatchesUpIff`) and by the listing, which also drops the switch of every vault that is not listed
  (`VaultListing.ListingCachesExactly`).
- A pull removes nothing from the cache. A secret that another device deleted stays on the list for good
  (`ListedSecrets.GhostStaysListed`, `DeletedIsListed`), can be neither erased nor edited online
  (`GhostCannotBeErased`, `GhostCannotBeEdited`), and a write of it that is queued offline blocks the queue behind it
  (`GhostBlocks`).
- The detail of a secret can mix two versions: the payload that the server has by now, under the server's version, beside
  a row that was pulled before (`Reading.DetailMixesIff`).
- Marking a recovery code re-seals the tiers as far as they are cached: if the index was not loaded, the mark erases it
  on the server as well (`Writing.MarkKeepsIndexIff`, `MarkErasesIndex`).
- A create whose answer is lost is queued, every replay of it meets the duplicate as an internal error, and nothing
  behind it in the queue is ever sent (`BlockedQueue.LostCreateBlocks`, `BlockedQueue.BlockedForGood`).
- `AttachBlob` is documented as raising the secret's version; the statement does not, and must not: the tiers were
  sealed under it. A version conflict during the attachment of a replayed blob upload is a plain error that stops the
  queue.
- `SetupEncryption` on an account that is already configured, called while the session is locked (a fresh process is),
  draws a new MasterKey: `KeyLaws.SetupKeepsIff` says that being unlocked is exactly what is needed, and
  `KeyLaws.LockedSetupOrphansVaults` what is lost otherwise.
- The comment of `Unlock` speaks of checking a vault key; the check that takes place is the opening of the envelope.

## Model

| member | source | states |
|---|---|---|
| ServerLaws.RejectedChangesNothing | internal/server/usecase/secret/update.go:24-45 | a request that is not accepted leaves every table as it was |
| ServerLaws.AcceptedChangesOneSecret | internal/server/usecase/secret/update.go:24-45 | an accepted request changes the one secret that it names as it asks, raises the version of its vault by one, touches nothing else, and is answered with the version that the secret then has |
| ServerLaws.RunMovesForward | internal/server/infra/postgres/gen/secrets.sql.go:36-47 | over any run versions only grow, rows keep their vault and kind, a deleted row is frozen, and no secret changes behind an unchanged vault version |
| ServerLaws.RunConservesVersions | internal/server/usecase/secret/create.go:30-52 | a vault's version minus the versions of all its secrets grows by exactly the accepted attachments, over every run |
| ServerLaws.NewVaultConservesVersions | internal/server/usecase/secret/attach_blob.go:31-55 | from creation on a vault's version is 1 plus the sum of the versions of its secrets, deleted ones included, plus the accepted attachments |
| ServerLaws.HistoryIsLinear | internal/server/usecase/secret/update.go:24-45 | the bases of the accepted updates and deletes of a secret are consecutive, whoever sent them |
| ServerLaws.OneWinnerPerBase | internal/server/usecase/secret/update.go:24-45 | two accepted writes of one secret never share a base, whatever ran between them |
| ServerLaws.NothingAfterDelete | internal/server/usecase/secret/delete.go:17-38 | once deleted a secret accepts no write and its row never changes again |
| ServerLaws.RunKeepsSealing | internal/server/infra/postgres/gen/secrets.sql.go:272-298 | over every run of honest requests each live secret at version v holds three tiers sealed under v |
| ServerLaws.ConflictsOpen | internal/client/usecase/secret/generic.go:108-146 | every server copy that comes with a version conflict decrypts under the version it carries |
| Isolation.ForeignRun | internal/server/infra/postgres/gen/secrets.sql.go:91-96 | whatever requests other users send, and however many, a vault, its version and every secret in it stay as they are |
| Isolation.AnswersAreDiscreet | internal/server/infra/postgres/gen/secrets.sql.go:91-137 | nothing in any answer (conflict copy, payload, rows, indexes, vault versions, upload reference) lies in a vault of another user, and only the owner of a vault gets a write accepted |
| Isolation.AlikeAnswers | internal/server/infra/postgres/gen/secrets.sql.go:211-255 | an answer depends on the vaults and secrets of the asking user alone, and on whether a new identifier is taken |
| Isolation.ForeignStepIsInvisible | internal/server/infra/postgres/gen/secrets.sql.go:272-298 | no request of another user changes what a user can see |
| Isolation.OwnStepStaysAlike | internal/server/usecase/secret/update.go:9-50 | on two servers on which a user sees the same, the same request leaves the user seeing the same |
| Isolation.AnswersAsIfAlone | internal/server/usecase/secret/update.go:9-50 | over any run every answer to a user is the one that he would get if the requests of all others were left out, as long as nobody else draws an identifier of his |
| Isolation.OthersAreInvisible | internal/server/usecase/secret/create.go:12-57 | the same from any well-formed state of one server on |
| DatabaseTables.Database.BumpVaultVersion | internal/server/infra/postgres/gen/secrets.sql.go:36-47 | raises the version of this vault and of no other |
| DatabaseTables.Database.InsertSecret | internal/server/infra/postgres/gen/secrets.sql.go:49-89 | a new secret starts at version 1 |
| DatabaseTables.Database.UpdateFields | internal/server/infra/postgres/gen/secrets.sql.go:272-298 | replaces the tiers and raises the version, which it returns |
| DatabaseTables.Database.SoftDelete | internal/server/infra/postgres/gen/secrets.sql.go:257-270 | marks the row deleted and raises its version |
| DatabaseTables.Database.SetBlobRef | internal/server/infra/postgres/gen/secrets.sql.go:14-34 | sets the reference and returns the version, unchanged |
| DatabaseTables.Database.GetForUpdate | internal/server/infra/postgres/gen/secrets.sql.go:91-137 | finds a secret only through a vault of the user |
| DatabaseTables.Database.CreateVault | internal/server/usecase/vault/create.go:10-30 | a new vault starts at version 1 |
| DatabaseTables.Database.CreateSecret | internal/server/usecase/secret/create.go:12-57 | the transaction equals the table function, error cases included |
| DatabaseTables.Database.UpdateSecret | internal/server/usecase/secret/update.go:9-50 | update under the optimistic lock equals the table function: not found, conflict with the current copy, or both versions raised |
| DatabaseTables.Database.DeleteSecret | internal/server/usecase/secret/delete.go:8-43 | the soft delete equals the table function |
| DatabaseTables.Database.AttachBlob | internal/server/usecase/secret/attach_blob.go:19-60 | the attachment raises the vault's version and not the secret's |
| DatabaseTables.Database.ListSecretRows | internal/server/infra/postgres/gen/secrets.sql.go:211-255 | the listing holds exactly the live secrets of a vault of the user, with version and row |
| DatabaseTables.Database.ListSecretIndex | internal/server/infra/postgres/gen/secrets.sql.go:171-209 | the same for the index tier |
| DatabaseTables.Database.Serve | internal/server/transport/grpcserver/errors.go:30-55 | every request, faults included, has the effect and the reply of the table function |
| Sealing.OpensExactlyUnderItsVersion | internal/client/usecase/secret/tiers.go:46-66 | a secret decrypts exactly under the version its tiers were sealed under |
| Sealing.ResealKeepsTexts | internal/client/usecase/secret/conflict_from_outbox.go:186-241 | re-sealing under another version keeps all three plaintexts and never exceeds the index limit |
| LocalStorage.LocalStore.UpsertSecretRow | internal/client/localstore/secret_repo.go:12-39 | the conditional upsert keeps loaded tiers only at an unchanged version and resets them otherwise |
| LocalStorage.LocalStore.SetSecretPayload | internal/client/localstore/secret_repo.go:41-53 | a payload is cached only at the version it was read for |
| LocalStorage.LocalStore.SetSecretIndex | internal/client/localstore/secret_repo.go:55-69 | the same for the index |
| LocalStorage.LocalStore.DeleteSecret | internal/client/localstore/secret_repo.go:109-116 | the row goes, the others stay |
| LocalStorage.LocalStore.EnqueueOutbox | internal/client/localstore/outbox_repo.go:13-35 | a new entry goes to the end of the queue under a new number |
| LocalStorage.LocalStore.ListOutboxByStatus | internal/client/localstore/outbox_repo.go:37-65 | the entries of one status in the order of the queue |
| LocalStorage.LocalStore.GetOutbox | internal/client/localstore/outbox_repo.go:67-80 | finds the entry with this number, if there is one |
| LocalStorage.LocalStore.SetOutboxStatus | internal/client/localstore/outbox_repo.go:82-92 | one entry changes its status in place; an unknown one is an error |
| LocalStorage.LocalStore.RemoveOutbox | internal/client/localstore/outbox_repo.go:94-101 | exactly this entry goes and the order of the others stays |
| LocalStorage.LocalStore.UpsertVault | internal/client/localstore/vault_repo.go:12-29 | an upsert keeps the synced version and the user's sync switch |
| LocalStorage.LocalStore.SetVaultSyncedVersion | internal/client/localstore/vault_repo.go:67-74 | records up to which version a vault was pulled |
| LocalStorage.LocalStore.DeleteVault | internal/client/localstore/vault_repo.go:85-92 | one cached vault is removed |
| LocalStorage.LocalStore.SetVaultSyncEnabled | internal/client/localstore/vault_repo.go:76-83 | switches one vault and touches nothing else |
| Clients.Client.CreateTyped | internal/client/usecase/secret/generic.go:49-72 | create online, or cache and queue offline, equals the model operation |
| Clients.Client.UpdateTyped | internal/client/usecase/secret/generic.go:74-106 | update with its online, offline and conflict branches equals the model operation |
| Clients.Client.UpdateOffline | internal/client/usecase/secret/update.go:25-51 | an offline update caches all tiers under base + 1 and queues them |
| Clients.Client.CreateOffline | internal/client/usecase/secret/create.go:25-51 | an offline create caches under version 1 and queues |
| Clients.Client.DeleteOffline | internal/client/usecase/secret/update.go:53-73 | an offline delete queues and drops the cached row |
| Clients.Client.CacheFullSecret | internal/client/usecase/secret/update.go:76-104 | all three tiers are cached at one version, by one upsert and two guarded setters |
| Clients.Client.CacheCreated | internal/client/usecase/secret/create.go:53-66 | a created secret is cached at version 1 |
| Clients.Client.CreateVault | internal/client/usecase/vault/create.go:12-60 | a created vault is cached with sync switched on |
| Clients.Client.OpenVault | internal/client/usecase/vault/list.go:50 | a listed vault is opened with its key |
| Clients.Client.List | internal/client/usecase/vault/list.go:15-77 | vaults that unwrap are opened, cached and returned with their switch; the cached vaults that the server did not list go; without an answer nothing changes |
| Clients.Client.PruneStaleVaults | internal/client/usecase/vault/list.go:82-95 | exactly the cached vaults that were not listed are removed |
| Clients.Client.Lock | internal/client/session/session.go:74-80 | all vault keys are forgotten, cache and outbox stay |
| Clients.Client.DeleteSecret | internal/client/usecase/secret/resolve_conflict.go:10-39 | delete with its conflict and offline branches equals the model operation |
| Clients.Client.MarkOtpCodeUsed | internal/client/usecase/secret/otp_use.go:13-71 | marking a code re-seals the cached tiers under a new version, an absent index as null |
| Clients.Client.RetryBlobUpload | internal/client/usecase/secret/binary.go:217-248 | a staged file is uploaded and attached to version 1 |
| Clients.Client.CreateBinary | internal/client/usecase/secret/binary.go:49-98 | the identifier comes with every error after the creation; only a failed upload or attachment of a staged file leaves a queued task |
| Clients.Client.ReplayEntry | internal/client/usecase/sync/outbox_replay.go:50-148 | one turn of the replay, by the kind of the entry |
| Clients.Client.ReplayCreate | internal/client/usecase/sync/outbox_replay.go:67-87 | an acknowledged create cleans the row at version 1 |
| Clients.Client.ReplayUpdate | internal/client/usecase/sync/outbox_replay.go:89-109 | an acknowledged update caches the row at the version of the answer |
| Clients.Client.ReplayDelete | internal/client/usecase/sync/outbox_replay.go:111-120 | an acknowledged delete drops the row |
| Clients.Client.ReplayBlobUpload | internal/client/usecase/sync/outbox_replay.go:122-137 | a queued upload is repeated |
| Clients.Client.HandleReplayConflict | internal/client/usecase/sync/outbox_replay.go:139-148 | a version conflict marks the entry, every other error stops the replay |
| Clients.Client.ReplayOutbox | internal/client/usecase/sync/outbox_replay.go:17-47 | the replay loop equals the recursive specification, stopping at the first error that is no conflict |
| Clients.Client.ConflictFromOutbox | internal/client/usecase/secret/conflict_from_outbox.go:36-181 | an entry in conflict is sent again to learn the server's copy |
| Clients.Client.ConflictFromOutboxUpdate | internal/client/usecase/secret/conflict_from_outbox.go:56-118 | the queued update itself is the probe; if it goes through there is no conflict left |
| Clients.Client.ConflictFromOutboxDelete | internal/client/usecase/secret/conflict_from_outbox.go:120-179 | the same for a queued delete |
| Clients.Client.RetryOutboxUpdate | internal/client/usecase/secret/conflict_from_outbox.go:181-241 | the queued update is re-sealed under the new base, sent, and requeued if the server moved on |
| Clients.Client.SendAgain | internal/client/usecase/secret/conflict_from_outbox.go:205-241 | the re-sealed update goes out; a new conflict replaces the entry at the end of the queue |
| Clients.Client.RetryOutboxDelete | internal/client/usecase/secret/conflict_from_outbox.go:120-179 | the delete is retried and its entry goes only with success |
| Clients.Client.ResolveConflict | internal/client/usecase/secret/generic.go:32-47 | mine retries, server caches the server's copy |
| Clients.Client.LoadIndexes | internal/client/usecase/secret/list_index.go:10-43 | the loop fills exactly the index tiers the specification fills |
| Clients.Client.PayloadCiphertext | internal/client/usecase/secret/get_payload.go:36-56 | a payload comes from the cache or from the server |
| Clients.Client.ReadPayload | internal/client/usecase/secret/rows.go:46-66 | the payload reader equals the model operation |
| Clients.Client.ReadDetail | internal/client/usecase/secret/rows.go:77-117 | the detail reader with its lazy loads equals the model operation |
| Clients.Client.ListRowsTyped | internal/client/usecase/secret/rows.go:15-44 | the list reader's loop equals the model operation |
| Clients.Client.OutstandingSecretIds | internal/client/usecase/sync/engine.go:145-169 | the guard set is the secrets of all pending and conflicting entries |
| Clients.Client.RefreshVaultMeta | internal/client/usecase/sync/engine.go:96-114 | the vaults of the listing are upserted |
| Clients.Client.PullVaultRows | internal/client/usecase/sync/engine.go:116-143 | rows without entries are upserted and the version read before them is recorded |
| Clients.Client.Sync | internal/client/usecase/sync/engine.go:10-51 | the pull loop equals the recursive specification |
| Clients.Client.SyncWithProgress | internal/client/usecase/sync/progress.go:33-105 | the staged pull equals its specification |
| Coherence.ReadRowsNeverFails | internal/client/usecase/secret/rows.go:15-44 | under the invariant the list reader opens every cached row |
| Coherence.ReplayKeeps | internal/client/usecase/sync/outbox_replay.go:67-148 | a replay, rewinding rows to acknowledged versions, keeps every cached and queued tier sealed under its version |
| Coherence.RetryOutboxUpdateKeeps | internal/client/usecase/secret/conflict_from_outbox.go:56-118 | over any number of repeated conflicts queued updates stay sealed under base + 1 |
| Runs.RunKeepsCoherent | internal/client/localstore/secret_repo.go:12-69 | over every run each cached tier, each queued update and each shown conflict is sealed under exactly its version and belongs to the vault and the kind that its secret was created with; a shown conflict shows the texts of its server copy and of the user's own side |
| Runs.ReadersNeverFail | internal/client/usecase/secret/rows.go:46-117 | after every run the list, payload and detail readers never fail to decrypt |
| Reading.CachedPayload | internal/client/usecase/secret/get_payload.go:37-42 | a loaded payload is read from the cache with the cached version, without a call |
| Reading.FetchedPayload | internal/client/usecase/secret/get_payload.go:43-56 | any other is the server's at its answer, with the server's version, and is kept if it fits the cached row |
| Reading.DetailIsRead | internal/client/usecase/secret/rows.go:77-117 | the detail shows the payload reader's answer, the plaintext of the cached row and the plaintext of the index if it is loaded by then, each in its place |
| Reading.DetailMixesIff | internal/client/usecase/secret/rows.go:86-103 | a detail names the version of its payload, and its row belongs to that version if and only if the server still has the cached version when it answers |
| Reading.RowsAreRead | internal/client/usecase/secret/rows.go:17-44 | the list shows exactly the cached secrets of the kind in the vault, each with its version and the plaintext of its row |
| Reading.KeptIsRead | internal/client/usecase/secret/rows.go:17-117 | of a wholly cached secret all three readers show the sealed content under the cached version, without a call |
| Reading.CalmIndexes | internal/client/usecase/secret/list_index.go:15-45 | undisturbed, a clean unloaded row gets the server's index |
| Reading.PulledIsRead | internal/client/usecase/secret/rows.go:77-117 | of a secret of which only the row was pulled the detail reader, undisturbed, shows the server's three texts under its version |
| Writing.CreateReports | internal/client/usecase/secret/generic.go:49-72 | success means that the server took the sealed create or that it is the last of the queue; with an error nothing was cached or queued |
| Writing.UpdateReports | internal/client/usecase/secret/generic.go:74-106 | the same for an update, sealed under base + 1 |
| Writing.DeleteReports | internal/client/usecase/secret/resolve_conflict.go:13-39 | the same for a delete; the row is gone from the cache |
| Writing.RefusalsAreTold | internal/client/usecase/secret/generic.go:84-98 | what the server refuses for good is reported with its reason |
| Writing.UpdateIsRead | internal/client/usecase/secret/generic.go:74-106 | read your writes: after an update of a content, taken or queued, all three readers show it under base + 1 |
| Writing.CreateIsRead | internal/client/usecase/secret/generic.go:49-72 | the same after a create, under version 1 |
| Writing.MarkReports | internal/client/usecase/secret/otp_use.go:13-71 | a marked code was written: taken or queued is an update with the marked payload; with an error nothing changed |
| Writing.MarkIsRead | internal/client/usecase/secret/otp_use.go:46-71 | afterwards all three readers show the marked payload beside the row and index that were cached |
| Writing.MarkKeepsIndexIff | internal/client/usecase/secret/otp_use.go:38-58 | the index written with a mark is the cached one if and only if it was loaded, and null otherwise |
| Writing.MarkErasesIndex | internal/client/usecase/secret/otp_use.go:38-58 | so a mark on a secret whose index was not loaded erases it on the server |
| Writing.UploadReports | internal/client/usecase/secret/binary.go:220-248 | an upload that ends well took the staged file and was attached to version 1; any other leaves the file staged |
| Writing.BinaryReports | internal/client/usecase/secret/binary.go:51-98 | once the secret is created its identifier is returned; a staged file is then uploaded, or stays staged with its upload as the last entry of the queue |
| Writing.CreateVaultReports | internal/client/usecase/vault/create.go:12-60 | a created vault is cached switched on and open under the drawn key, or nothing of it is kept |
| Writing.LockedRefuses | internal/client/session/session.go:47-90 | after a lock every reader and every writer refuses and changes nothing |
| Freshness.AcknowledgedLeavesBehind | internal/server/infra/postgres/gen/secrets.sql.go:36-47 | an acknowledged write puts the vault's version ahead of the recorded one |
| FreshOperations.PullIsFresh | internal/client/usecase/sync/engine.go:116-143 | reading the freshness before the rows makes the recorded version sound, whatever other devices write in between |
| FreshOperations.SyncIsFresh | internal/client/usecase/sync/engine.go:12-51 | a pull over all vaults keeps the freshness invariant |
| FreshOperations.TakeServerIsFreshIff | internal/client/usecase/secret/generic.go:40-43 | against the server's tables: taking the server's side keeps freshness if and only if it does not put back an older version than the cache claims |
| Runs.RunKeepsFresh | internal/client/usecase/sync/engine.go:116-169 | freshness over every run in which the server's side is taken only of cards not overtaken by a pull |
| VaultListing.ListingCachesExactly | internal/client/usecase/vault/list.go:31-95 | after an answered listing a vault is cached if and only if it is the user's and was cached before or unwraps now; the first keep their switch and synced version, the others are switched off and never pulled; secrets and outbox stay |
| VaultListing.ListingIsQuiet | internal/client/usecase/vault/list.go:52-61 | caching listed vaults and dropping the others lets the cache claim nothing that it did not claim before |
| VaultListing.ListingTellsServer | internal/client/usecase/vault/list.go:52-70 | a listed vault that unwraps is cached and shown with the version of the server, and shown with its switch as cached |
| Runs.SessionIsQuiet | internal/client/usecase/vault/list.go:32-52 | opening vaults and locking them concerns no cached row |
| CatchingUp.PullCatchesUpIff | internal/client/usecase/sync/engine.go:12-51 | if every call gets through and nobody writes, both pulls end well and afterwards the synced version of a vault of the user is the server's if and only if the vault was cached before and switched on, or up to date already |
| CatchingUp.SwitchDecides | internal/client/usecase/sync/engine.go:53-56 | setting the switch of a cached vault decides whether such a pull brings it up to date |
| CatchingUp.PullFetches | internal/client/usecase/sync/engine.go:116-169 | so every live secret without an entry of a vault that is switched on is then cached in its vault with the server's kind, version and row |
| ListedSecrets.ListShowsIff | internal/client/usecase/secret/rows.go:17-44 | the list of an up-to-date vault shows a secret without an entry if and only if it is live there and of the kind asked for, with the server's version and row, or was deleted elsewhere and is cached still |
| ListedSecrets.PullRemovesNone | internal/client/usecase/sync/engine.go:116-143 | neither pull removes a secret from the cache, whatever the server answers |
| ListedSecrets.GhostStaysListed | internal/client/usecase/sync/engine.go:116-143 | after an undisturbed pull that ends well, and by which the vault is up to date, a secret deleted elsewhere is listed all the same |
| ListedSecrets.GhostCannotBeErased | internal/client/usecase/secret/resolve_conflict.go:13-39 | deleting it online is answered with not found and leaves the cached row |
| ListedSecrets.GhostCannotBeEdited | internal/client/usecase/secret/generic.go:74-106 | so is editing it |
| ListedSecrets.GhostBlocks | internal/client/usecase/secret/update.go:53-73 | deleting it offline is queued, and where nothing waits before it no replay ever gets past it |
| ListedSecrets.DeletedIsListed | internal/client/usecase/sync/engine.go:116-143 | a concrete world, keeping all invariants, in which a deleted secret is listed after a good pull |
| PullReports.PrepareReports | internal/client/usecase/sync/engine.go:18-36 | a pull that cannot begin reports the error of the call that failed |
| PullReports.SyncReports | internal/client/usecase/sync/engine.go:12-51 | both pulls report success if and only if everything they begin with and every vault they ask for was answered, and otherwise the error of the first call that was not |
| Runs.SyncedMeansSynced | internal/client/usecase/sync/engine.go:12-51 | for any session and any run from an empty client: the synced version never exceeds the server's, and when they are equal every live secret without an entry is cached with the server's kind, version and row |
| Runs.StartIsGood | internal/client/localstore/vault_repo.go:12-29 | an empty client with any vaults open, in front of any well-formed server, satisfies the freshness invariant, and the sealing invariant if server, tape and open vaults use the right keys |
| StagedSync.StagedIsSyncThenLoad | internal/client/usecase/sync/progress.go:33-105 | given the same answers the staged pull is the plain pull followed by index loads |
| StagedSync.StagedRefinesSync | internal/client/usecase/secret/list_index.go:15-43 | its index loads only fill clean unloaded rows at matching versions; everything else is as after the plain pull |
| StagedSync.SyncSpares | internal/client/usecase/sync/engine.go:117-169 | the plain pull leaves alone every secret with an entry, pending or in conflict, and every secret of a vault that is switched off |
| StagedSync.PullsSpareSwitchedOff | internal/client/usecase/sync/progress.go:33-105 | neither pull touches a secret of a vault that is switched off |
| StagedSync.PullsKeepFlags | internal/client/localstore/vault_repo.go:12-29 | both pulls keep the switch of every vault, and the recorded version of each that is switched off |
| StagedSync.FillIndexesIff | internal/client/usecase/secret/list_index.go:24-41 | a row gets an index if and only if it is clean, has none, and is listed at its own version |
| StagedSync.StagedTouchesOutstandingIff | internal/client/usecase/secret/list_index.go:15-43 | the staged pull changes the row of a secret with an entry if and only if the row is clean and unloaded, the pull ended well, and a listing of its own vault carries its version |
| StagedSync.OutstandingRowIsFilled | internal/client/usecase/sync/progress.go:33-105 | a concrete world, keeping both invariants, in which it does |
| StagedSync.StagedIsFresh | internal/client/usecase/sync/progress.go:33-105 | the staged pull keeps the freshness invariant |
| ReplayLaws.AcceptancesFollowTheQueue | internal/client/usecase/sync/outbox_replay.go:17-47 | what the server accepts during a replay is what was sent for the entries, in queue order |
| ReplayLaws.EachEntrySendsItsOwn | internal/client/usecase/sync/outbox_replay.go:67-137 | at most one accepted write per entry, its own, and none after the first error |
| ReplayLaws.ReplayConserves | internal/client/usecase/sync/outbox_replay.go:17-148 | a removed entry was accepted, every other survives with its payload, and entries behind the first hard error are untouched |
| ReplayLaws.ReplayThinsTheQueue | internal/client/localstore/outbox_repo.go:37-65 | the queue after a replay is what is left of the queue before it, in its order |
| ReplayLaws.OutboxReplayConserves | internal/client/usecase/sync/outbox_replay.go:17-148 | the same for the whole operation, conflicting entries and order included |
| ReplayResults.ReplayReports | internal/client/usecase/sync/outbox_replay.go:28-47 | a replay reports success if and only if no turn along the queue failed or the first one to fail did so with an outage, and otherwise exactly the error of that first turn |
| ReplayResults.StopsAtFirstFailure | internal/client/usecase/sync/outbox_replay.go:28-47 | it stops in the world that the first failing turn leaves |
| ReplayResults.EndsWithoutFailure | internal/client/usecase/sync/outbox_replay.go:28-47 | with no failing turn it ends where the last turn leaves it |
| ReplayResults.TurnEndsAsAnswered | internal/client/usecase/sync/outbox_replay.go:67-148 | a turn is done, left in conflict, or fails with the very error of the answer, by what the server answered to the request of the entry |
| ReplayResults.UploadTurnEnds | internal/client/usecase/sync/outbox_replay.go:122-137 | a repeated upload is done with the attachment, waits on after an outage, and fails otherwise |
| ReplayResults.BlockedReports | internal/client/usecase/sync/outbox_replay.go:28-47 | each of any number of replays of a blocked queue reports the error that its head was answered with, unless that was an outage |
| QueueRuns.RunStaysTruthful | internal/client/localstore/outbox_repo.go:14-30 | over every run, timely or not: entry numbers never change their meaning, and the conflict on display names a version that the server has reached and an entry that asks for what the card says |
| QueueRuns.NothingIsForgotten | internal/client/usecase/sync/outbox_replay.go:17-47 | over every run, whatever others and the network do: an operation that is queued is queued still, in its own entry or in one that asks for the same, or a write of this client that does what it asks was accepted since |
| AccountedOperations.SendAgainAccounts | internal/client/usecase/secret/conflict_from_outbox.go:186-241 | a repeated conflict write removes its entry only for an accepted update with the same plaintexts, or puts one with the same plaintexts in its place |
| AccountedOperations.ReplayAccounts | internal/client/usecase/sync/outbox_replay.go:17-47 | a replay removes an entry only after its own write was accepted in its turn |
| AccountedOperations.RetryOutboxDeleteAccounts | internal/client/usecase/secret/conflict_from_outbox.go:166-177 | a queued delete goes only once a delete was accepted or a new entry for it was queued |
| BlockedQueue.CreateGoesThroughIff | internal/client/usecase/sync/outbox_replay.go:67-87 | a delivered, acceptable create goes through if and only if the server does not have the secret; otherwise it is an internal error |
| BlockedQueue.BlockedForGood | internal/client/usecase/sync/outbox_replay.go:17-47 | behind a queued create of a secret that the server has, and behind a queued update or delete of one that is deleted there, any number of replays leaves the whole queue as it is |
| BlockedQueue.LostCreateBlocks | internal/client/usecase/secret/generic.go:49-72 | a create whose answer is lost is reported as done, queued, and blocks in this way if nothing waits before it |
| OfflineChain.EditLinksIff | internal/client/usecase/secret/update.go:25-73 | an offline create, update or delete keeps the queue of its secret linked, each operation built on the outcome of the one before, if and only if the cached version is the one that the queue leads to; then the end moves on by one version, shows the edit, and the cache stands there |
| OfflineChain.QueueTellsEnd | internal/client/usecase/secret/update.go:25-73 | the version that a linked queue leads to can be read off its last operation, so the client can check whether an edit fits |
| OfflineChain.EditsChain | internal/client/usecase/secret/update.go:25-73 | any number of offline edits one after the other stay linked, the end is one version on per edit and shows the last one |
| OfflineChain.ReplayFollowsChain | internal/client/usecase/sync/outbox_replay.go:67-120 | replaying an undisturbed chain moves the server along it step by step |
| OfflineChain.ChainDrains | internal/client/usecase/sync/outbox_replay.go:17-47 | a finished replay of a linked queue, wherever the cache stands, leaves no entry of the secret and meets no conflict |
| OfflineChain.ChainArrives | internal/client/usecase/sync/outbox_replay.go:17-47 | it leaves the server where the queue led, and the cache shows that |
| OfflineChain.OfflineEditsArrive | internal/client/usecase/secret/create.go:25-50 | without interruption: after a finished replay the server has advanced by one version per edit and server and cache show the last edit, or nothing after a delete |
| InterruptedChain.ReplayLinksIff | internal/client/usecase/sync/outbox_replay.go:17-47 | a replay, finished or stopped anywhere, keeps the queue linked and its end where it was, if and only if it did not stop on an entry of the secret that the server had taken |
| InterruptedChain.RefusalsDoNotUnlink | internal/client/usecase/sync/outbox_replay.go:17-47 | it does not if no answer on the tape is lost, however many calls fail to get through |
| InterruptedChain.ReplayRewindsIff | internal/client/usecase/sync/outbox_replay.go:97-108 | a replay that keeps the queue linked leaves the cache at its end if and only if it played none or all of the secret's entries; otherwise the cached version is rewound |
| InterruptedChain.InterruptedEditsArrive | internal/client/usecase/sync/outbox_replay.go:17-47 | offline edits with any number of interrupted replays between them: if each edit fitted and no answer was lost, a finished replay drains the secret's entries, its version grew by one per edit, and server and cache show the last one |
| InterruptedChain.MisfitConflicts | internal/client/usecase/sync/outbox_replay.go:138-148 | an edit that does not fit: once a replay runs to its end the server is where the queue led without the edit, and the edit is marked as a conflict; if it made the secret again or met an erased one, no replay runs to its end |
| SelfConflict.AloneInConflict | internal/client/usecase/sync/outbox_replay.go:97-108 | a concrete run of one client with nobody else: two offline edits, a replay interrupted after the first, a third edit, a finished replay |
| SelfConflict.HowItEnds | internal/client/localstore/secret_repo.go:12-38 | at its end the third edit is in conflict, and its payload is cached clean under the version of the second |
| SelfConflict.LastEditDoesNotFit | internal/client/cli/secret_edit.go:206-208 | its first state is chained, after the interrupted replay the queue is linked, leads to version 3, and the third edit does not fit |
| ConflictLaws.NextCardIsNewer | internal/client/usecase/secret/generic.go:74-106 | a repeated conflict is about the same plaintexts and shows a strictly newer server version, whether or not the cache is fresh |
| ConflictLaws.InsistingProgresses | internal/client/usecase/secret/conflict_from_outbox.go:186-241 | over any number of answers "mine" the server versions strictly increase |
| ConflictLaws.MineWins | internal/client/usecase/secret/generic.go:34-47 | if nobody interferes one "mine" succeeds, the server holds the user's content, the cache agrees and the entry is gone |
| ResolveReports.ProbeReports | internal/client/usecase/secret/conflict_from_outbox.go:56-181 | the probe of a queued operation ends without a conflict only if the server took it; the entry is then gone and the cache holds what it asked for |
| ResolveReports.SendAgainReports | internal/client/usecase/secret/conflict_from_outbox.go:205-241 | a repeated write that is reported as done was accepted with the same plaintexts, in its first or in its second try, and its entry is gone |
| ResolveReports.MineIsWritten | internal/client/usecase/secret/generic.go:32-39 | whatever the conflict came from: "mine" that is reported as done was accepted since, or waits as the last of the queue |
| Writing.ServerSideIsRead | internal/client/usecase/secret/generic.go:40-43 | after taking the server's side all three tiers, version and kind are cached as the server's copy, loaded and clean, and all three readers give what the card showed as the server's |
| Writing.ShownServerSideIsRead | internal/client/usecase/secret/generic.go:40-43 | so it is for whatever conflict any run leaves on display |
| Writing.CardReportsRefusal | internal/client/usecase/secret/generic.go:84-98 | a conflict is shown only if the write was not accepted, with the server's row as it was at the answer and the user's content as typed |
| OvertakenCards.TakingIsSafeIff | internal/client/usecase/secret/generic.go:40-43 | on cache and card alone: taking the server's side is fresh against every server that may be behind them if and only if the cache has no newer row, or an entry for the secret, or never pulled the vault |
| OvertakenCards.EveryShownCardProgresses | internal/client/usecase/secret/generic.go:34-47 | for whatever conflict any run leaves on display, also a run that has lost freshness, any number of answers "mine" meets strictly increasing versions with the user's content unchanged |
| OvertakenCards.OvertakenCardRewinds | internal/client/usecase/secret/generic.go:40-43 | a concrete run from a good start: an edit meets a conflict, a pull overtakes it, the server's side is taken, and freshness is lost |
| AadFormat.PrintedIsInjective | internal/client/usecase/secret/aad.go:19-22 | two printed contexts are equal exactly for the same vault, secret, version and tier |
| AadFormat.Parses | internal/client/usecase/secret/aad.go:19-22 | identifiers and version can be read back from the printed form, whatever follows |
| Bytes.BigEndianRoundTrip | internal/client/cryptoimpl/stream_aead.go:116-122 | fixed-width integers read back as long as they fit |
| StreamLaws.OpensExactly | internal/client/cryptoimpl/stream_aead.go:93-138 | a chunk opens exactly at its own place in its own stream, with the flag it was sealed with |
| StreamLaws.ReadsAsConsists | internal/client/usecase/secret/frame.go:23-37 | an input reads as a list of frames exactly when it is those frames followed by nothing or by one bare header |
| StreamLaws.DecodeExactly | internal/client/usecase/secret/binary.go:250-287 | for every input: a prefix of the named stream is written, and decoding ends well exactly on the whole of a completed stream |
| StreamLaws.NamelessFails | internal/client/usecase/secret/binary.go:250-270 | an input without a stream identifier is refused before anything is written |
| StreamIntegrity.RoundTrip | internal/client/usecase/secret/binary.go:139-179 | decoding the encoding gives the whole text |
| StreamIntegrity.TruncationIsDetected | internal/client/usecase/secret/binary.go:250-287 | every proper prefix is refused and what was written is a prefix of the text |
| StreamIntegrity.TrailingBytes | internal/client/usecase/secret/frame.go:23-37 | behind the encoding exactly silence or one bare length header is accepted |
| StreamIntegrity.BrokenConnectionIsDetected | internal/client/grpcclient/blob.go:92-106 | a failing connection never passes for the end of the stream |
| StreamIntegrity.OnlyTheRightFrames | internal/client/cryptoimpl/stream_aead.go:93-138 | of whole frames put together in any way only those of one completed stream in their order decode |
| StreamIntegrity.PlanIsFile | internal/client/usecase/secret/binary.go:139-179 | the chunks of any reader schedule make up the file, with at least one chunk |
| StreamIntegrity.OneLastFlag | internal/client/cryptoimpl/stream_aead.go:50-63 | however a file is read, exactly one sealing of its stream carries the flag, and it is the last; none does if reading fails |
| StreamIntegrity.PublishingExtends | internal/client/cryptoimpl/stream_aead.go:50-63 | sealing a stream under a fresh identifier adds it to what receivers know |
| StreamIntegrity.OtherContextsDoNotMatter | internal/client/cryptoimpl/stream_aead.go:124-138 | sealing under other associated data changes nothing for a receiver |
| StreamIntegrity.WrongContextFails | internal/client/cryptoimpl/stream_aead.go:124-138 | a stream sealed under other associated data, by the same key, adds nothing for this receiver: decoding it writes nothing and fails |
| StreamCodec.StreamEncrypter.SealChunk | internal/client/cryptoimpl/stream_aead.go:50-63 | a chunk is sealed under the current counter and flag and the counter advances, wrapping at 64 bits |
| StreamCodec.StreamDecrypter.OpenChunk | internal/client/cryptoimpl/stream_aead.go:89-114 | a chunk opens under the current counter and flag, and nothing after the last one |
| StreamCodec.ReadFull | internal/client/usecase/secret/frame.go:23-37 | all bytes over any number of short reads, io.EOF only if there was nothing, another error otherwise |
| StreamCodec.ReadFrame | internal/client/usecase/secret/frame.go:23-37 | reading a frame from messages of any size equals reading it from their concatenation |
| StreamCodec.WriteFrame | internal/client/usecase/secret/frame.go:11-21 | a length header and the data |
| StreamCodec.EncodeStream | internal/client/usecase/secret/binary.go:139-179 | the look-ahead loop writes the encoding of the chunks of the schedule, sealed in order, the last one flagged if the file ended |
| StreamCodec.DecodeStream | internal/client/usecase/secret/binary.go:250-287 | the look-ahead loop writes and reports what the recursive decoder says, for every input |
| BlobTransport.BlobStreamReader.Read | internal/client/grpcclient/blob.go:92-106 | bytes are handed on without loss or reordering, across empty messages and for every buffer size |
| BlobTransport.UploadBlob | internal/client/grpcclient/blob.go:15-57 | the messages carry exactly the reader's bytes; the first one alone names the secret; an empty file still takes one |
| BinaryTransfer.BlobServer.Receive | internal/server/usecase/blob/upload.go:11-36 | what is stored is the concatenation of the messages |
| BinaryTransfer.UploadBinaryData | internal/client/usecase/secret/binary.go:100-124 | success means that the encoding of the whole file is stored; a failed read leaves a stream without a last chunk |
| BinaryTransfer.DownloadBinary | internal/client/usecase/secret/binary.go:181-205 | the stored object is decoded under the cached version, or under 1 |
| BinaryTransfer.UploadedStreamIsOk | internal/client/usecase/secret/frame.go:9-37 | every frame of an upload stays below the frame limit |
| BinaryTransfer.TierIsNoChunk | internal/client/usecase/secret/aad.go:19-22 | no sealed tier can be met as a chunk of a blob |
| BinaryTransfer.DownloadGivesTheFile | internal/client/usecase/secret/binary.go:181-205 | a download gives the uploaded file if and only if the file was read to its end and the version it is opened under is 1 |
| BinaryTransfer.EditedBinaryIsLost | internal/client/usecase/secret/binary.go:191-204 | the concrete case of one edit |
| KeySession.Session.SetMasterKey | internal/client/session/session.go:26-31 | the session holds the array it was given |
| KeySession.Session.OpenVault | internal/client/session/session.go:47-52 | the key of one vault is held, the others stay |
| KeySession.Session.SetPINMaterial | internal/client/session/session.go:92-99 | the PIN material is copied into arrays of its own |
| KeySession.Session.PINMaterial | internal/client/session/session.go:101-112 | callers get copies |
| KeySession.Session.ZeroKeys | internal/client/session/session.go:82-90 | every key array is wiped in place, however it is shared |
| KeySession.Session.SoftLock | internal/client/session/session.go:74-80 | keys are wiped in place and the PIN material keeps every byte |
| KeySession.Session.Lock | internal/client/session/session.go:62-72 | nothing is left, neither reachable nor in the old arrays |
| KeyEnvelope.Auth.SetupEncryption | internal/client/usecase/auth/setup_encryption.go:22-75 | reuses the MasterKey of an unlocked session, draws one otherwise; equals the model operation for every fate of the call |
| KeyEnvelope.Auth.FetchEnvelope | internal/client/usecase/auth/refresh.go:11-34 | login and refresh replace the envelope in memory, and on disk if there is one |
| KeyEnvelope.Auth.LoadCachedEncryption | internal/client/usecase/auth/usecase.go:120-142 | a fresh process takes the envelope from disk |
| KeyEnvelope.Auth.Unlock | internal/client/usecase/auth/login.go:72-99 | opens the envelope in memory, with all error cases |
| KeyEnvelope.Auth.SetPIN | internal/client/usecase/auth/pin.go:25-58 | wraps the MasterKey under the PIN, in memory only |
| KeyEnvelope.Auth.UnlockWithPIN | internal/client/usecase/auth/pin.go:62-88 | unwraps it again from copies |
| KeyEnvelope.Auth.GenerateRecoveryCodes | internal/client/usecase/auth/recovery.go:24-73 | five codes replace the old ones on the server and are shown formatted |
| KeyEnvelope.Auth.RecoverWithCode | internal/client/usecase/auth/recovery.go:75-112 | a typed code is normalised, looked up, opened, marked and put into the session |
| KeyEnvelope.KeyServer.StoreRecoveryCodes | internal/server/usecase/auth/recovery.go:14-29 | old codes go first and a failure midway leaves the codes stored so far |
| KeyLaws.RunKeeps | internal/client/usecase/auth/setup_encryption.go:22-75 | over every run in which a configured account is set up again only by unlocked clients, everything anyone holds belongs to one MasterKey |
| KeyLaws.RunFromRegistration | internal/client/usecase/auth/setup_encryption.go:30-38 | the same from a blank account on |
| KeyLaws.UnlockRestores | internal/client/usecase/auth/login.go:72-99 | a passphrase opens exactly the envelope made with it, to the MasterKey |
| KeyLaws.NewPassphraseReachesOthers | internal/client/usecase/auth/refresh.go:11-34 | after a change, even one whose answer was lost, every client that fetches the envelope unlocks with the new passphrase and with no other |
| KeyLaws.PinRestores | internal/client/usecase/auth/pin.go:62-88 | after any run without a full lock, a restart or another PIN, the PIN and no other unlocks to the same MasterKey |
| KeyLaws.FreshCodeRecovers | internal/client/usecase/auth/recovery.go:75-112 | an unused code recovers the MasterKey and once marked never again |
| KeyLaws.ShownCodesRecover | internal/client/usecase/auth/recovery.go:24-112 | every code shown to the owner recovers the MasterKey on any client, whatever ran in between that spared it |
| KeyLaws.EveryVaultOpens | internal/client/usecase/vault/list.go:16-55 | listing opens every vault of the account with the key that lies in its wrap |
| KeyLaws.CreatedVaultOpens | internal/client/usecase/vault/create.go:14-52 | after any disciplined run a created vault opens on every unlocked client with the key that was drawn when it was created |
| KeyLaws.SetupKeepsIff | internal/client/usecase/auth/setup_encryption.go:27-38 | setting up again keeps everything if and only if the client is unlocked |
| KeyLaws.LockedSetupOrphansVaults | internal/client/usecase/auth/setup_encryption.go:27-38 | a locked client that sets up a configured account unlocks no vault afterwards |
| KeyAccess.OpensIff | internal/client/usecase/auth/login.go:72-99 | after every disciplined run a locked client is opened, to the one MasterKey, if and only if it brings the passphrase of its envelope, the PIN that was set, or an unused code that reaches the server |
| KeyAccess.StaysShut | internal/client/session/session.go:62-90 | over every run, whatever anyone does, a client without keys stays without MasterKey and vault keys until it brings such a credential |
| KeyAccess.LockShuts | internal/client/session/session.go:62-90 | each lock and each restart shuts a client in this way; after a full lock or a restart no PIN opens it either |
| KeyAccess.DiskUnlocks | internal/client/usecase/auth/usecase.go:120-142 | once a client has set up or fetched an envelope, a new process unlocks from disk alone, with the passphrase of that envelope and with no other, whatever happened in between |
| KeyAccess.NewCodesReplaceOld | internal/server/usecase/auth/recovery.go:14-29 | after new codes were generated exactly these are unused |
| KeyAccess.SucceedsIff | internal/client/usecase/auth/pin.go:25-88 | after every disciplined run each operation succeeds exactly when it is granted, by credential, lock and network |
| KeyAccess.RefusalChangesNothing | internal/client/usecase/auth/recovery.go:75-112 | a refused operation changes nothing on client and server, unless only its answer was lost, and then nothing on the client |
| KeyAccess.ReasonsAreTrue | internal/client/usecase/auth/recovery.go:75-112 | the reason of a refusal is true, and a code that the server finds is never invalid |
| RecoveryCode.FormatRecoveryCode | internal/client/usecase/auth/recovery.go:130-148 | the two loops give the groups of four joined by dashes |
| RecoveryCode.NormalizeCode | internal/client/usecase/auth/recovery.go:150-159 | the loop drops dashes and spaces and keeps the low byte of everything else |
| RecoveryCode.ReadsBack | internal/client/usecase/auth/recovery.go:130-159 | normalising a formatted code gives the code |
| RecoveryCode.SpacingDoesNotMatter | internal/client/usecase/auth/recovery.go:150-159 | a dash or space anywhere changes nothing |
| Columns.SharesFit | internal/client/tui/row_render.go:196-205 | the floors of the proportional shares sum to at most what there is and leave less than one cell per column |
| Columns.Pass | internal/client/tui/row_render.go:184-212 | one pass serves every active column, gives away no more than there is, and freezes a column or leaves only rounding |
| Columns.Spread | internal/client/tui/row_render.go:184-212 | as many passes as columns are enough: what remains is rounding, or all weighted columns are at their caps |
| Columns.ComputeColumnWidths | internal/client/tui/row_render.go:160-226 | the widths sum to exactly the larger of the available width and the minimums; minimums, caps and proportions hold, and only the last weighted column may exceed its cap |
| Luhn.LuhnCheckDigit | internal/client/tui/secret_form_view.go:1580-1593 | for every string of bytes: the digit that makes the weighted sum a multiple of ten |
| Luhn.LuhnValid | internal/client/tui/secret_form_view.go:1596-1604 | for every string of bytes: valid means 12 to 19 bytes, the last one a digit, whose weighted sum is a multiple of ten |
| Luhn.AppendedIsValid | internal/client/tui/secret_form_view.go:1580-1604 | appending the check digit makes a valid number |
| Luhn.OnlyOneCheckDigit | internal/client/tui/secret_form_view.go:1596-1604 | no other digit would do |
| Luhn.SingleChangeIsDetected | internal/client/tui/secret_form_view.go:1580-1604 | one wrong digit always shows |
| Luhn.SwapIsDetected | internal/client/tui/secret_form_view.go:1580-1604 | two neighbouring digits that changed places show if and only if they differ and are not 0 and 9 |
| Luhn.ExtractDigits | internal/client/tui/secret_form_view.go:1569-1577 | the loop keeps exactly the digits |
| Luhn.FormatPAN | internal/client/tui/secret_form_view.go:1553-1566 | the loop gives the first 16 digits in groups of four |
| Luhn.FormattingKeepsDigits | internal/client/tui/secret_form_view.go:1553-1577 | formatting loses none of the first 16 digits and is idempotent |
| Luhn.SpacesEveryFive | internal/client/tui/secret_form_view.go:1553-1566 | every fifth character and no other is a space |

## Left out

- gRPC, protobuf mapping, JSON encoding (marshal and unmarshal are taken as inverse), SQL engines, pools and retries.
- The terminal and command line interfaces, except the column widths and the card number helpers.
- Real cryptography: ciphertexts and derived keys are ideal, nonces and identifiers are parameters.
- Goroutine races inside one client: client operations are atomic among themselves.
- An encoder left waiting by a sender that failed, and failing writes of the download's output.
- How files are staged and cleaned up, only whether it works; the object storage behind uploads is a map. The checks of
  a new secret's fields (empty title, missing file) before anything happens.
- The order of listings by identifier: listings come in order of creation, and the list reader returns a map.
- Deleted flags of vaults and of cached secrets, which no modelled code sets; wiping of the local data on
  an account switch. Names of vaults, the order in which a listing shows them, and locked listings of this client
  (`KeyModel.ListVaults` has those).
- Wrapped vault keys and vault names in the sync cache: the sync model holds the key of each open vault instead.
- Overflow of 64-bit versions; versions are integers.
- TOTP codes, search, dashboard rows and the progress messages of the staged pull.
- The credential part of login and registration, token storage and two-factor authentication.
- Clients.Client.ListRowsTyped: does not give the order of the rows.
- BinaryTransfer.UploadBinaryData: asks for fewer than 2^64 reads of the file, and runs encoder and sender one after
  the other, so that the pipe never blocks.
