# AlertHub: a verified model of its alert pipeline, sessions, devices and queries

AlertHub is a Go service. Devices authenticate with API keys and ingest alerts into PostgreSQL;
every stored alert is announced with `NOTIFY` to all API instances; each instance streams alerts
to its SSE subscribers and runs an escalation handler, which stores a further `auto_escalated`
alert when a burst is large enough and no cooldown is running. Clients hold rotating refresh
tokens, manage devices that can be soft-deleted and restored, and page through their alerts.

The project models those parts and proves what they keep over whole runs. `dafny verify
dfyconfig.toml` checks it.

| file | part |
|---|---|
| `Common.dfy`, `Text.dfy` | UUIDs, faults, 64-bit wrap-around, trimming |
| `AlertStore.dfy`, `Cooldown.dfy`, `Escalation.dfy`, `Ingest.dfy` | the repositories and services around the alert table |
| `Pipeline.dfy`, `PipelineProperties.dfy`, `PipelineTermination.dfy`, `IngestRuns.dfy` | all instances as one interleaving transition system; ingest calls as runs of it |
| `Stream.dfy`, `FanOut.dfy`, `Listener.dfy` | the SSE fan-out, as called and under concurrency; the listeners |
| `Tokens.dfy`, `Auth.dfy`, `AuthProperties.dfy`, `AuthHistory.dfy` | refresh-token families over serial runs |
| `AuthInterleaving.dfy` | refresh calls that overlap or stop half way, statement by statement |
| `Devices.dfy`, `DeviceService.dfy`, `DeviceProperties.dfy` | the device lifecycle |
| `Pagination.dfy`, `Query.dfy`, `QueryService.dfy` | the alert list |
| `Composition.dfy` | the parts against each other, over one alert store |
| `Shortfalls.dfy` | a concrete run for each way in which the code does less than one might expect |

Services and repositories that change state are classes; each method is proved to do what a
function on plain values says, and the theorems quantify over all sequences of those functions.
What such a function says is in turn stated without it, field by field and case by case
(`UpToClaim`, `AcceptsIff`, `UpdateIs`, `WantedIsAskedFor` and their like).
What comes from outside (clocks, generated ids and keys, lost requests and lost replies,
cancellation) is a parameter. A storage call that fails may fail before or after it took effect.

## Assumptions

- SHA-256 is injective, and the text of a UUID determines it. `lower()`, `ILIKE`, UUID parsing and
  time parsing are arbitrary functions.
- Generated keys and family ids do not repeat. Generated row ids may; the primary key then refuses
  the row.
- The theorems of `AuthProperties`, `AuthHistory` and on device keys are about calls that run one
  after the other with storage that works. `AuthInterleaving` drops this for refresh calls: their
  statements interleave with everything else and a call may stop after any of them. The name and
  owner theorems on devices hold for every interleaving of statements.
- The clock of the shared cooldown store does not go back, and the cooldown is positive. The
  application clocks are arbitrary.
- The database refuses an INSERT into `alerts` only for its key or for a NUL character in its text:
  devices are never deleted for good and built alerts meet the CHECK constraints. Device names it
  refuses or shortens as its `VARCHAR(100)` column and its CHECK constraint say.

## Where the code does less than one might expect

- A replaced token that is replayed after its expiry, or after it was revoked, does not revoke its
  family (`ReuseIsNoticedIff`; a run where the family stays usable: `LateReplayGoesUnnoticed`).
- Revoking a session by the id of an already replaced token leaves the session's current token
  usable (`RevokeSessionEndsFamilyIff`; a run: `RevokedSessionGoesOn`).
- A refresh is not one transaction. A family comes to have two unreplaced tokens exactly when two
  calls whose checks have passed exchange one token, or when a call stops between storing the new
  token and linking the old one (`ForkedIff`; runs: `OverlappingCallsFork`, `InterruptedCallForks`).
- The listeners' backoff is never reset while they live: after five reconnects every wait is 30
  seconds, however healthy the connections were (`Listener.Run`).
- One event of a batch whose text holds a NUL character keeps all its valid events from being stored
  (`TakesAllIff`; a batch: `OneEventKeepsOutTheBatch`).
- The check for a free device name compares the name in full, and the column then cuts off spaces past
  the hundredth character: only then can a serial call meet the name index
  (`SerialWriteMeetsNameIndexIff`; two calls: `IndexRefusesWhatTheCheckPassed`).
- An SSE dispatch may drop an alert from a buffer that has room by then (`DropsWithRoomIff`).
- The restore window and the reported purge time part ways outside -106751..106751 days
  (`WindowMatchesPurgeTimeIff`).
- Page offsets and page counts wrap around outside 64 bits (`OffsetExactIff`, `TotalPagesExactIff`):
  page 4611686018427387905 of size 4 is page 1 (`FarPageIsTheFirst`).
- With a zero cooldown the memory store always grants and Redis grants once (`StoresAgreeIff`).
- The alert that triggers an escalation is among its sources only when it is itself recent
  (`EverySourceListIsExact`; a run that leaves it out: `EscalatesWithoutItsTrigger`).

## Model

| member | source | states |
|---|---|---|
| AlertStore.OrderByTimeSorts | core/repository/alert/alert_repository.go:231-232 | ORDER BY occurred_at, id keeps each row once; ids being unique, earlier rows come first and rows of one instant by their ids |
| AlertStore.OrderIsUnique | core/repository/alert/alert_repository.go:231-232 | a bag of rows has only one strictly ordered arrangement |
| AlertStore.WindowExact | core/repository/alert/alert_repository.go:231-250 | the window query returns exactly the rows of that device and type with occurred_at >= since, once each, earliest first |
| AlertStore.AlertRepository.Create | core/repository/alert/alert_repository.go:121-128 | appends the row under a new id or nothing: refused for an id in use or text with a NUL; a lost reply stores the row and reports failure |
| AlertStore.AlertRepository.CreateBatch | core/repository/alert/alert_repository.go:130-154 | exactly the rows of the batch in request order, or none, also when only the reply to the commit is lost; which rows refuse it |
| AlertStore.AlertRepository.FindByID | core/repository/alert/alert_repository.go:156-166 | the row of that id, not found, or a storage error |
| AlertStore.AlertRepository.ListSameTypeIDsWithinWindow | core/repository/alert/alert_repository.go:231-250 | the loop collects the ids of the window rows in order |
| Cooldown.MemoryCooldownStore.ClaimEscalation | core/repository/escalation/cooldown_memory.go:19-30 | grants exactly when the key is not cooling, and then moves its expiry |
| Cooldown.GrantedExactlyOutsideCooldown | core/repository/escalation/cooldown_memory.go:19-30 | in any series of claims a grant happens iff no earlier grant on the key is less than one TTL old |
| Cooldown.StoresAgreeIff | core/repository/escalation/cooldown_redis.go:19-25 | the memory store and Redis SET NX answer every series alike iff the TTL is positive |
| Escalation.Notifier.NotifyAlertCreated | core/repository/alert/alert_notifier.go:21-32 | the announcement carries the row's client and id, unless the request was lost |
| Escalation.StringifyUUIDs | core/services/alert/alert_escalation_service.go:97-103 | the texts of the ids, in order |
| Escalation.EscalationService.BuildRow | core/services/alert/alert_escalation_service.go:105-123 | the row built from the texts that the loop collects is the row the atomic insert step stores |
| Escalation.EscalationService.HandleNewAlert | core/services/alert/alert_escalation_service.go:58-95 | the straight-line call is the uninterrupted run of its five atomic steps, faults included |
| Escalation.EscalationService.Escalate | core/services/alert/alert_escalation_service.go:79-94 | the same for its second half, from the cooldown claim on |
| Escalation.EmitsExactlyWhen | core/services/alert/alert_escalation_service.go:58-95 | a fault-free call emits iff it is enabled, the alert is stored and ordinary, its window is at the threshold, no cooldown runs for its device and type, and the generated id is new; otherwise it stores and announces nothing |
| Escalation.UpToClaim | core/services/alert/alert_escalation_service.go:58-77 | a call up to its claim, whatever fails: the first check that stops it decides the outcome and nothing has changed; else it claims with the ids of the window |
| Escalation.FromClaim | core/services/alert/alert_escalation_service.go:79-85 | the claim is for the device and type of the alert; a granted one moves that expiry to the store's clock plus the cooldown, and only then does the call go on, whatever fails |
| Escalation.FromInsert | core/services/alert/alert_escalation_service.go:87-94 | the insertion and the announcement for every fault: the row stored, the notification sent and the result |
| Escalation.EscalationRowIs | core/services/alert/alert_escalation_service.go:105-123 | every field of the escalation row: device and client of the alert, fixed type, severity and message, the listed ids with their count, and the window in whole seconds |
| Ingest.BuildAlertExact | core/services/alert/alert_ingest_service.go:89-109 | when an event is accepted, every field of the alert it then becomes, and otherwise the error of the first of the three checks it fails |
| Ingest.PositionsPartition | core/services/alert/alert_ingest_service.go:61-72 | the accepted and the rejected positions split the batch |
| Ingest.IngestService.IngestEvent | core/services/alert/alert_ingest_service.go:38-51 | the rows, the announcements and the result for every combination of faults; only stored rows are announced |
| Ingest.IngestService.Judge | core/services/alert/alert_ingest_service.go:61-72 | the validation loop fills alerts, indexes and errors position by position |
| Ingest.IngestService.Announce | core/services/alert/alert_ingest_service.go:78-84 | succeeds iff every announcement does; otherwise those before the first failing one are out, and that one too if only its reply was lost |
| Ingest.IngestService.IngestBatch | core/services/alert/alert_ingest_service.go:53-87 | size limits, the stored rows, the response and the announcements, for success and each failure; only stored rows are announced |
| Ingest.TakesAllIff | core/repository/alert/alert_repository.go:130-154 | a batch can be stored iff its ids are new and no text in it holds a NUL character |
| Ingest.BatchResponsePartitions | core/services/alert/alert_ingest_service.go:53-87 | response indexes are increasing and each event is in exactly the list it belongs to |
| Ingest.BatchEffectIs | core/services/alert/alert_ingest_service.go:74-86 | the rows, the announcements and the outcome of a batch for every combination of faults |
| Ingest.RejectionCodes | core/services/alert/alert_ingest_service.go:64-68 | the code in each rejection is that of the first check its event fails |
| Pipeline.AppendKeeps | core/services/alert/alert_escalation_service.go:71-87 | what handlers recorded of the table stays true when any instance appends a row |
| Pipeline.GrantKeepsClaims | core/repository/escalation/cooldown_memory.go:23-28 | a grant on a key that is not cooling keeps all claims a cooldown apart |
| Pipeline.EmitKeepsLog | core/services/alert/alert_escalation_service.go:87-90 | an inserted row is charged to a claim no other row is charged to |
| Pipeline.ApplyKeepsInv | core/services/alert/alert_escalation_service.go:58-95 | every step of every instance, crash, loss and ingest keeps the pipeline invariant |
| Pipeline.Reachable | core/services/alert/alert_escalation_listener.go:43-82 | the invariant holds after any interleaving of any number of instances |
| PipelineProperties.RunsExtend | core/repository/alert/alert_repository.go:121-128 | rows and history are append-only and device owners never change |
| PipelineProperties.EscalationRate | core/services/alert/alert_escalation_service.go:79-90 | for each device and alert type, the claims of an interval of length L yield at most ceil(L / cooldown) escalation rows |
| PipelineProperties.EscalationTotal | core/services/alert/alert_escalation_service.go:79-90 | each device and alert type has at most 1 + elapsed / cooldown escalation rows since the start |
| PipelineProperties.EveryClaimWasGranted | core/services/alert/alert_escalation_service.go:79-85 | every claim that a row can be charged to was a step of the run: a handler claimed for the device and type of its alert, at the store's clock, with no cooldown running |
| PipelineProperties.HistoryIsExact | core/services/alert/alert_escalation_service.go:87-90 | the history counted above lists exactly the stored escalation rows, once each |
| PipelineProperties.EverythingWasRead | core/services/alert/alert_escalation_service.go:71-77 | what a claiming or inserting handler carries, and what a stored escalation lists, is the result of one window query of the run, at its table and its clock |
| PipelineProperties.EverySourceListIsExact | core/services/alert/alert_escalation_service.go:71-123 | each escalation row lists exactly the rows present at that query with occurred_at >= now - window; no marker is a source; the trigger is listed iff it is that recent |
| PipelineProperties.NotificationsMatchOwners | core/services/alert/alert_listener.go:89-98 | every pending notification names a stored row and the owner of its device |
| PipelineTermination.FeedbackDiesOut | core/services/alert/alert_escalation_service.go:67-94 | without ingest, the cost of any run is bounded by the work pending at its start |
| PipelineTermination.CallsAndStepsAreBounded | core/services/alert/alert_escalation_listener.go:54-82 | m instances at rest with n queued notifications, o of them of ordinary alerts, make at most n + m * o handler calls in at most n + (4 + m) * o steps |
| PipelineTermination.SingleInstanceCalls | core/services/alert/alert_escalation_listener.go:64-82 | one instance with n queued notifications, o ordinary, makes at most n + o handler calls |
| PipelineTermination.DrainedIff | core/services/alert/alert_escalation_listener.go:54-61 | no work is left iff queues are empty and handlers rest |
| Stream.Channel.Offer | core/services/alert/alert_stream_service.go:69-77 | the nested selects leave the end of the old buffer followed by the new alert, as much of it as the capacity allows |
| Stream.StreamService.Subscribe | core/services/alert/alert_stream_service.go:40-46 | adds a fresh empty channel and nothing else |
| Stream.StreamService.Unsubscribe | core/services/alert/alert_stream_service.go:48-52 | removes that subscriber only |
| Stream.StreamService.Snapshot | core/services/alert/alert_stream_service.go:55-60 | every current subscriber once, in any order |
| Stream.StreamService.Dispatch | core/services/alert/alert_stream_service.go:54-80 | each channel of the alert's client whose subscription is to its device or to none keeps the end of its buffer followed by the alert; all others are unchanged |
| Stream.KeepsTheNewest | core/services/alert/alert_stream_service.go:69-77 | after any number of undrained dispatches the buffer is the last min(k, capacity) alerts of all k |
| FanOut.Conservation | core/services/alert/alert_stream_service.go:54-80 | for any dispatchers and interleaving, popped then buffered is exactly what was pushed, in order, and matches |
| FanOut.OffersBalance | core/services/alert/alert_stream_service.go:54-80 | for any dispatchers, as bags: what was offered is what was popped, is buffered, or is still owed by a dispatcher |
| FanOut.EveryOfferIsAccounted | core/services/alert/alert_stream_service.go:62-78 | one dispatcher: each offered alert is received, dropped, buffered or being sent, once and in order |
| FanOut.OffersExactly | core/services/alert/alert_stream_service.go:54-80 | a channel is offered an alert exactly when a dispatcher takes it up and its subscription matches; nothing else is ever offered |
| FanOut.UndisturbedDispatchDelivers | core/services/alert/alert_stream_service.go:54-80 | with room for one alert, a dispatcher that nothing interrupts can finish, and then leaves in every channel what the straight-line dispatch leaves |
| FanOut.UnsubscribeStopsDelivery | core/services/alert/alert_stream_service.go:48-60 | a subscriber off the map and out of all snapshots gets nothing more |
| FanOut.CanBlockIff | core/services/alert/alert_stream_service.go:69-77 | some run blocks the final send iff capacity is zero with a dispatcher, or two goroutines dispatch |
| FanOut.DropsWithRoomIff | core/services/alert/alert_stream_service.go:71-76 | a drop can hit a channel that has room iff capacity is at least two |
| Listener.Listen | core/services/alert/alert_listener.go:54-73 | the loop never returns nil, reports the context's error only when it is done, and hands on each notification |
| Listener.Run | core/services/alert/alert_listener.go:37-52 | the waits before reconnecting are 1, 2, 4, 8, 16 and then 30 seconds each, whatever the connections did; the reset is reached only once the context is done |
| Listener.WaitsGrowToTheCap | core/services/alert/alert_escalation_listener.go:26-41 | waits never shrink and are 30 seconds from the sixth on |
| Listener.AlertListener.HandleNotification | core/services/alert/alert_listener.go:75-99 | dispatches the named row, or nothing on a bad payload, a failed lookup or a non-blank client text that is not the row's client |
| Listener.HandledAlertIs | core/services/alert/alert_listener.go:75-99 | which alert a notification comes down to: the stored row it names, if its payload is readable and its client text is blank or that of the row's client |
| Tokens.ClientTokenRepository.Create | core/repository/client_token/client_token_repository.go:48-67 | appends the token unless its id or hash is taken |
| Tokens.ClientTokenRepository.FindByHash | core/repository/client_token/client_token_repository.go:69-81 | the token of that hash or not found |
| Tokens.ClientTokenRepository.RevokeByClientID | core/repository/client_token/client_token_repository.go:98-107 | revokes the client's token of that id and tells whether there was one |
| Tokens.RevocationsAre | core/repository/client_token/client_token_repository.go:93-117 | which rows each of the four statements touches and how it leaves them |
| Tokens.FirstRevocationStays | core/repository/client_token/client_token_repository.go:93-117 | any mix of the four revoke statements keeps each token's first revocation and its other fields |
| Auth.AuthService.IssueTokens | core/services/auth/auth_service.go:151-168 | a new token in the given or a new family, or an error and no change |
| Auth.AuthService.RegisterClient | core/services/auth/auth_service.go:54-74 | a known e-mail address is refused and changes nothing; a new client gets a key, and a family of its own, unless the key or the id is taken |
| Auth.AuthService.LoginClient | core/services/auth/auth_service.go:76-85 | wrong credentials change nothing; right ones return the new key and store its token, or report a storage error exactly when the key or the id is taken; the key returned is accepted until it expires |
| Auth.AuthService.RefreshSession | core/services/auth/auth_service.go:87-122 | returns the new key exactly when the token is accepted and an error otherwise, which one is stated; every branch leaves the state of the specification |
| Auth.AuthService.LogoutClient | core/services/auth/auth_service.go:124-126 | revokes what the client holds |
| Auth.AuthService.RevokeClientSession | core/services/auth/auth_service.go:144-149 | fails exactly when the client has no such session |
| Auth.AuthService.LogoutEverywhere | core/services/auth/auth_service.go:128-130 | revokes what the client holds, for the other reason |
| AuthProperties.Reachable | core/services/auth/auth_service.go:54-168 | families stay chains of one owner with unique keys over every run of calls |
| AuthProperties.RunsAreLater | core/repository/client_token/client_token_repository.go:88-117 | replacements and revocations are monotone over every run |
| AuthProperties.FamiliesAreChains | core/services/auth/auth_service.go:111-121 | from any token the links lead forward to the newest, the only unreplaced one of the family |
| AuthProperties.AcceptsIff | core/services/auth/auth_service.go:87-121 | a raw token is accepted iff a row has its hash, unexpired, unrevoked and unreplaced, and the new key and id are not in use |
| AuthProperties.RefusedRefreshEffect | core/services/auth/auth_service.go:87-121 | a refused refresh that is no replay at most touches the last use of the one token |
| AuthProperties.EndingsAre | core/services/auth/auth_service.go:97-149 | which tokens a replay, the two logouts and a session revocation end, and with which reason; all other tokens are unchanged |
| AuthProperties.AcceptedRefreshEffect | core/services/auth/auth_service.go:107-121 | an accepted refresh replaces one token, adds one, and changes nothing else |
| AuthProperties.AcceptedAtMostOnce | core/services/auth/auth_service.go:87-122 | a raw token accepted once is never accepted again |
| AuthProperties.ReuseKillsFamily | core/services/auth/auth_service.go:97-100 | replaying a replaced token revokes the family; no continuation accepts or extends it |
| AuthProperties.ReuseIsNoticedIff | core/services/auth/auth_service.go:93-100 | a refresh revokes something iff the token is replaced, unexpired and unrevoked |
| AuthProperties.LogoutEndsSessions | core/services/auth/auth_service.go:124-130 | after a logout only later tokens of the client are accepted; other clients are untouched |
| AuthProperties.LoginIsUsable | core/services/auth/auth_service.go:76-122 | a login's token is accepted iff it has not expired and the new key is unused, whatever preceded |
| AuthProperties.RevokeSessionEndsFamilyIff | core/services/auth/auth_service.go:144-149 | revoking a session ends its family iff it was the newest token or the family was dead |
| AuthProperties.RefreshIsCheckThenWrite | core/services/auth/auth_service.go:87-122 | the serial call is its checks followed by its writes |
| AuthProperties.InterleavedRefreshesFork | core/services/auth/auth_service.go:89-121 | two calls whose checks both precede the writes leave two new tokens, each usable until its expiry |
| AuthHistory.EveryRowTells | core/services/auth/auth_service.go:54-168 | each token goes back to the call that issued it, and is revoked or replaced iff a later call did so |
| AuthHistory.AcceptedIff | core/services/auth/auth_service.go:87-149 | after any run a raw token is accepted iff it was issued, not exchanged and not revoked since, has not expired, and the new key is unused |
| AuthInterleaving.UninterruptedCallIsRefresh | core/services/auth/auth_service.go:87-122 | the check and the three statements of a call, run together, are the serial refresh |
| AuthInterleaving.Reachable | core/services/auth/auth_service.go:87-168 | under every interleaving a family has its first token and one more for each exchange, and only exchanged tokens are replaced |
| AuthInterleaving.ForkedIff | core/services/auth/auth_service.go:93-121 | a family has two unreplaced tokens iff two calls exchanged one token of it or a call left an exchanged token unlinked |
| AuthInterleaving.OverlappingCallsFork | core/services/auth/auth_service.go:93-121 | a run from the empty tables in which two overlapping calls turn one token into two accepted ones |
| AuthInterleaving.InterruptedCallForks | core/services/auth/auth_service.go:110-121 | a run in which a call that stops before linking leaves both tokens accepted |
| Devices.DeviceRepository.Run | core/repository/device/device_repository.go:84-205 | each statement changes the one row it names or reports not found, a conflict, or a name or text that the table refuses |
| Devices.StatementsAre | core/repository/device/device_repository.go:84-205 | the fields each statement changes of the one row it is about; a refused one changes nothing |
| Devices.ConflictIs | core/repository/device/device_repository.go:220-231 | a row is refused for its name by another live device of the client, for its key by any other device |
| Devices.StoredNameIs | migrations/000003_create_devices.up.sql:22-32 | which names the column takes and what it keeps of them |
| Devices.DeviceRepository.HasActiveName | core/repository/device/device_repository.go:207-218 | whether another live device of the client has the name, or an error for a NUL character |
| Devices.DeviceRepository.FindByID | core/repository/device/device_repository.go:92-105 | the client's own device, deleted ones on request |
| Devices.DeviceRepository.FindByAPIKeyHash | core/repository/device/device_repository.go:107-116 | a live device with that hash, or there is none |
| DeviceService.DeviceServiceImpl.CreateDevice | core/services/device/device_service.go:72-108 | checks in order, then the insert, which may still be refused; the row holds the hash of the returned key |
| DeviceService.DeviceServiceImpl.UpdateDevice | core/services/device/device_service.go:153-196 | on success each field is the one requested, or the old one where none is, the name as the column keeps it; id, owner, key hash and deletion time stay; otherwise the first failing check's error |
| DeviceService.DeviceServiceImpl.DeleteDevice | core/services/device/device_service.go:198-204 | keeps the first deletion time and reports the purge time from it |
| DeviceService.DeviceServiceImpl.RestoreDevice | core/services/device/device_service.go:206-229 | restores to inactive, or the first failing check's error |
| DeviceService.DeviceServiceImpl.RotateAPIKey | core/services/device/device_service.go:231-247 | stores the hash of the returned key, never for a deleted device |
| DeviceService.CreateIs | core/services/device/device_service.go:72-108 | the row a creation stores, active unless another status is given, or the error of the first check it fails, in order |
| DeviceService.UpdateIs | core/services/device/device_service.go:153-196 | the same for an update |
| DeviceService.DeleteIs | core/services/device/device_service.go:198-204 | the same for a deletion |
| DeviceService.RestoreIs | core/services/device/device_service.go:206-229 | the same for a restore |
| DeviceService.RotateIs | core/services/device/device_service.go:231-247 | the same for a key rotation |
| DeviceProperties.AnyInterleavingKeepsTable | migrations/000003_create_devices.up.sql:40-41 | any sequence of statements keeps live names and hashes unique, rows present and owners fixed |
| DeviceProperties.OwnersOnlyGrow | core/repository/device/device_repository.go:84-205 | a statement adds one device's owner or changes no owner |
| DeviceProperties.StaleUpdateUndoesNothing | core/repository/device/device_repository.go:161-170 | an update from a stale read undoes no rotation, deletion or restore |
| DeviceProperties.RacingCreatesNeedTheIndex | core/services/device/device_service.go:84-101 | of two racing creations that both pass the check the index refuses the second |
| DeviceProperties.SerialWriteMeetsNameIndexIff | core/services/device/device_service.go:84-227 | a write that passed its checks meets the name index iff the column shortens its name to that of another live device |
| DeviceProperties.SerialWritesMeetNoNameIndex | core/services/device/device_service.go:84-227 | so a write whose name fits the column never meets it |
| DeviceProperties.SerialRunsNeedNoIndex | core/services/device/device_service.go:72-247 | serial runs whose names fit leave the same table with and without the name index |
| DeviceProperties.AuthenticatesIff | core/middleware/device_auth.go:26-35 | a raw key authenticates a device iff it is its last issued key and the device is live; at most one device |
| DeviceProperties.RotatedOutKeysStayDead | core/services/device/device_service.go:231-247 | a rotated-out key never authenticates again |
| DeviceProperties.RestoreRevivesKey | core/repository/device/device_repository.go:172-194 | a delete silences the key; a restore succeeds iff the window is open and brings it back |
| DeviceProperties.DeadlineStays | core/repository/device/device_repository.go:172-182 | repeated deletes and other calls leave the deletion time until a restore |
| DeviceProperties.WindowMatchesPurgeTimeIff | core/services/device/device_service.go:203-216 | the window test agrees with the reported purge time at all times iff the days are in range |
| Pagination.OffsetExactIff | core/utils/pagination/pagination.go:24-26 | the offset is exact iff it fits 64 bits |
| Pagination.TotalPagesExactIff | core/utils/pagination/pagination.go:28-32 | the page count is the ceiling iff its sum fits 64 bits |
| Pagination.PageLength | core/utils/pagination/pagination.go:24-26 | every page holds min(size, max(0, total - offset)) rows from its offset on, and is refused iff the offset wrapped below zero |
| Pagination.PagesTile | core/utils/pagination/pagination.go:24-42 | pages 1..TotalPages are the whole list |
| Pagination.HasNextIff | core/utils/pagination/pagination.go:34-41 | HasNext iff rows are left after the page; the next page then has rows, and otherwise none unless its offset wraps into the list |
| Pagination.MetaIs | core/utils/pagination/pagination.go:28-42 | the page information: the least number of pages that hold all rows, and whether there is a page on either side |
| Pagination.FarPageIsTheFirst | core/utils/pagination/pagination.go:24-26 | page 4611686018427387905 of size 4 is page 1 |
| Query.BuildAlertListQueries | core/repository/alert/alert_repository.go:79-115 | the stepwise assembly yields the query of the three cases: no search, text, text that is a UUID |
| Query.BindsEveryArgument | core/repository/alert/alert_repository.go:173-209 | both statements bind every placeholder to an argument of its type and use every argument; only a NUL in the search is refused |
| Query.KeptAreWanted | core/repository/alert/alert_repository.go:79-115 | the rows kept are the wanted alerts, once each: the join of a search is lossless under ownership |
| Query.QueriesMeanTheFilter | core/repository/alert/alert_repository.go:168-196 | List is the page of the wanted alerts, newest first, and Count is their number; a search with a NUL is refused |
| Query.List | core/repository/alert/alert_repository.go:168-196 | the repository call yields the page and the number of the wanted alerts, and fails iff the search holds a NUL or the offset is negative |
| Query.OwnershipIsNeeded | core/repository/alert/alert_repository.go:88-97 | without the ownership invariant a search loses alerts |
| QueryService.ParseSeverities | core/services/alert/alert_query_service.go:129-153 | the loop yields the first occurrences, or the error |
| QueryService.SeveritiesExact | core/services/alert/alert_query_service.go:129-153 | refused iff a non-blank name is no severity; otherwise exactly the names given, none twice |
| QueryService.ListAlerts | core/services/alert/alert_query_service.go:53-106 | refused iff one of the listed defects is present, with the error of the first; otherwise it shows its page of the listing of exactly the client's alerts that meet each condition named in the request, newest first, and their number |
| QueryService.DefectIs | core/services/alert/alert_query_service.go:53-84 | the checks of a request, in order, and their errors |
| QueryService.WantedIsAskedFor | core/services/alert/alert_query_service.go:86-95 | the filter made of a request wants an alert iff it is the client's and meets each condition of the request: parsed device id, named severities, from <= occurred_at <= to, trimmed search |
| QueryService.ListingIsUnique | core/repository/alert/alert_repository.go:79-115 | there is one listing of given alerts, newest first |
| QueryService.PagesListEverythingOnce | core/services/alert/alert_query_service.go:86-116 | all pages together list every wanted alert once, by (occurred_at DESC, id DESC) |
| Composition.ServiceCallIsARun | core/services/alert/alert_escalation_service.go:58-95 | an uninterrupted service call is a run of the pipeline |
| IngestRuns.EventIsARun | core/services/alert/alert_ingest_service.go:38-51 | an IngestEvent call is a run of the pipeline leaving the same rows and announcements, whatever fails |
| IngestRuns.BatchIsARun | core/services/alert/alert_ingest_service.go:53-87 | so is an IngestBatch call, stored or not and wherever its announcements stop |
| Composition.StreamsReachOnlyOwners | core/services/alert/alert_listener.go:75-99 | the listener dispatches every notified row, and only the owner of its device is streamed it |
| Composition.ListingsAreExactInRuns | core/repository/alert/alert_repository.go:168-196 | in every state that device statements and pipeline events reach together, the list query is exact, search included |
| Composition.JointReachable | core/repository/device/device_repository.go:84-205 | in every such state the device table and the pipeline agree on the owner of each device |
| Shortfalls.EscalatesWithoutItsTrigger | core/services/alert/alert_escalation_service.go:71-123 | a run whose escalation does not list the alert that triggered it |
| Shortfalls.LateReplayGoesUnnoticed | core/services/auth/auth_service.go:93-100 | a run in which a replaced token is replayed after its expiry, nothing is revoked and its successor is accepted |
| Shortfalls.RevokedSessionGoesOn | core/services/auth/auth_service.go:144-149 | a run in which a session is revoked by an old id and its current token is accepted |
| Shortfalls.IndexRefusesWhatTheCheckPassed | core/services/device/device_service.go:84-101 | two serial creations of which the name index refuses the second |
| Shortfalls.OneEventKeepsOutTheBatch | core/services/alert/alert_ingest_service.go:61-77 | a batch of two valid events that cannot be stored for the text of one |

## Left out

- HTTP handlers, routing, configuration, Swagger, response envelopes, the client profile and the error-to-status mapping: plumbing.
- JWT access tokens, bcrypt, random generation, JSON encoding and SSE heartbeats: taken as given or not part of the model.
- Cooldowns that are not positive, in the pipeline: the rate bound has no meaning for them.
- Redis rounds TTLs to milliseconds; times here are exact.
- `received_at`, `created_at`, `updated_at`, user agent, IP address and abilities: stored and read back, nothing depends on them.
- The device list, session list and last-seen lookup: the device list is ordered by `created_at` alone, which is no total order, and the others only copy rows.
- Isolation of the two statements of an alert list under concurrent inserts: pages are proved against a fixed table.
- An unbuffered channel hands an alert to a receiver that is already waiting; here a send into a channel of capacity zero waits.
- `window_seconds` goes through a float64 in the code and is exact division here; the two differ only for windows beyond about a hundred days.
- Times finer than a microsecond: PostgreSQL stores microseconds, so the `detected_at` of an escalation and its `occurred_at` may differ by less than one, and the window comparison is made on the shortened times.
- FanOut.Conservation: says nothing of which dispatch is pushed first when several goroutines dispatch, because the code leaves that open.
- PipelineTermination.FeedbackDiesOut: leaves out notifications that ingest calls have yet to send, because sending one is ingest.
