# Verification of the WhatsApp capture service

A Dafny model of the service that receives documents over WhatsApp, stores them as evidence, builds vehicle deals from them, and sends messages on behalf of other services. It states the behaviour of the worker, the `/v1` API, the outbox, the text mask and the media client as functions, methods over mutable tables, and state machines, and proves what every run of them keeps.

`dafny verify dfyconfig.toml` checks the whole project.

| File | Part of the service |
|---|---|
| `Redact.dfy` | the Aadhaar text mask |
| `MediaFetch.dfy` | media download and storage of one file |
| `DiPoll.dfy` | one poll and the chain of polls |
| `Outbox.dfy`, `OutboxRuns.dfy`, `OutboxKept.dfy` | `wa.outbox`, drains, enqueues and crashes interleaved over it, and what each step keeps |
| `OutboxSerial.dfy`, `OutboxOverlap.dfy`, `OutboxLateness.dfy`, `OutboxBackoff.dfy`, `OutboxDrain.dfy` | serial and overlapping drains, how late and how early a row can be claimed, and the drain itself |
| `Rows.dfy`, `Api.dfy`, `TenantPurge.dfy` | tables as sequences of rows, the `/v1` endpoints, tenant isolation over histories |
| `SendProtocol.dfy` | `send_message` as a protocol between concurrent callers |
| `Sessions.dfy`, `Checklist.dfy`, `Deals.dfy` | the session, checklist and deal modules |
| `Worker.dfy`, `WorkerTasks.dfy` | the worker's transactions, and its tasks from start to end |
| `Pipeline.dfy`, `PipelineSafety.dfy`, `PipelineOrder.dfy`, `PipelineOrigin.dfy`, `PipelineQueue.dfy`, `PipelineWitness.dfy` | all tasks interleaved as one machine, its safety, the order of a session's files, where files and deals come from, its termination, and a run that shows where safety ends |

## How the service is modelled

- **Steps.** One `engine.begin()` block is one atomic step, and so is each foreign call. Steps of different tasks, callers and drains interleave freely, and a crash may fall between any two. A task that crashes ends, or starts again while it has retries left.
- **Tables.** A table is a sequence (row id = position) or, where a unique index is the key, a map. Each module of the source is a class whose methods update its tables in place; every method is proved equal to a function of the old tables, and the properties are proved about those functions. Beside that equality every method states its outcome row by row and field by field, in terms of the tables alone (the predicates named `...Means`), and a lemma `...Is` proves it of the function.
- **Skip locked.** A claim takes any distinct eligible rows up to its limit; `AnyClaimableMayBeTaken` and `AnyFlushableMayBeClaimed` show that this is exactly what ordering, locking and the limit allow.
- **File projection.** `get_session_files` (`src/wa_service/wa/session.py:197-199`) does not select the classification columns that `process_session` reads. The projection is a parameter: as written, or with those columns. All safety results hold for both; `ReadyIff` says what it means as written (a session with any file always parks).
- **Environment.** audit-core binds one evidence id per Idempotency-Key; DI's terminal answer for an evidence id does not change; time does not go back. Similarity, texts, derived keys and the facts DI extracts are arbitrary.
- **Retries.** An invocation that ends by raising is started again by the job queue while retries are left.

## Where code and documentation differ

- `docs/api.md:81` promises that a retry under an Idempotency-Key never sends twice. The code does not put a failed row back to `pending` before the retry (`src/wa_service/api/routes.py:156`), so two overlapping retries both send (`OverlappingRetriesSendTwice`). `AtMostOnceOn` proves it for every row whose own retries wait until the attempt before has recorded its outcome, whatever happens to other rows, and `RetryIsSafeIff` gives the exact condition on one retry in every reachable state. For callers that do not overlap the documented table is proved (`RepeatIsReplay`).
- `src/wa_service/worker.py:328` comments that a re-raise is not retried. Re-raising is what makes the queue retry, so exactly the failures marked not retryable are tried again, a hash mismatch among them, which `src/wa_service/media/fetch.py:4` says is never retried; the model follows the code.
- `src/wa_service/media/fetch.py` limits a file to four attempts, but an expired URL costs two downloads in one attempt, so seven failed downloads are possible (`SevenFailedDownloads`).
- The last entry, 55 s, of the poll delays (`src/wa_service/worker.py:99`) is never used (`ChainIsBounded`).
- `_satisfy_confirmed_files` (`src/wa_service/worker.py:783-799`) is documented as looking at confirmed files; it looks only at type and evidence id (`LinkSatisfiesIff`).
- An exact booking-number hit confirms the deal but never links the session to it (`src/wa_service/worker.py:729-740`): `KnownDealKept` shows that every session's link stays as it was.

## Model

| member | source | states |
|---|---|---|
| `Redact.MatchEndDecidesPattern` | src/wa_service/media/redact.py:18 | the engine's greedy scan of one position finds exactly the end of a 4-4-4 digit match as the pattern describes it |
| `Redact.MatchesMeans` | src/wa_service/media/redact.py:18 | the pattern character by character: three groups of four digits with only white space between them and no word character on either side |
| `Redact.MaskRefinesSpec` | src/wa_service/media/redact.py:18-24 | a list of spans is the leftmost non-overlapping matches if and only if it is what the mask replaces, and the mask is the text with those spans rendered and all else verbatim |
| `Redact.PatchText` | src/wa_service/media/redact.py:24 | a replacement is `XXXX XXXX ` followed by the kept last group |
| `Redact.ResidualMatchStartsAtKept` | src/wa_service/media/redact.py:18-24 | a match in the output can start only where a kept last group starts |
| `Redact.MatchFreeIffNoResidue` | src/wa_service/media/redact.py:18-24 | the output has no match if and only if no replaced match is followed by two more digit groups |
| `Redact.IdempotentIffNoResidue` | src/wa_service/media/redact.py:22-24 | masking twice equals masking once under exactly that condition |
| `Redact.FixpointIffMatchFree` | src/wa_service/media/redact.py:22-24 | the mask leaves a text alone exactly when it has no match |
| `Redact.NothingReplacedIffMatchFree` | src/wa_service/media/redact.py:18-24 | nothing is replaced exactly when there is no match |
| `Redact.MaskConservesDigits` | src/wa_service/media/redact.py:18-24 | the output has the input's digits less exactly eight per replacement |
| `Redact.MaskConverges` | src/wa_service/media/redact.py:22-24 | iterating the mask digits/8 times leaves no match, for every text |
| `Redact.FiveGroupsLeaveAMatch` | src/wa_service/media/redact.py:22-24 | twelve digits, a space and eight digits keep a match after one pass, so one pass is not always enough |
| `MediaFetch.StreamDownload` | src/wa_service/media/fetch.py:54-83 | hashing and buffering chunk by chunk gives the result computed from the whole body, however it was cut; which status, broken connection or digest is which error; and the content, digest, size and type of a file |
| `MediaFetch.MetaClient.FetchMedia` | src/wa_service/media/fetch.py:86-116 | no request after four recorded attempts; resolve, download, and one more resolve and download exactly on an expired URL with fewer than three attempts recorded; which reply is which error |
| `MediaFetch.FetchIntegrity` | src/wa_service/media/fetch.py:78-83 | a successful result has the digest and size of its content and agrees with a declared hash |
| `MediaFetch.StoreResult` | src/wa_service/media/store.py:95-121 | which answers of audit-core yield an evidence id and which an error, and when it is retryable |
| `MediaFetch.InvokeIs` | src/wa_service/worker.py:311-360 | the attempts column rises by one exactly when a run could not fetch or store the file |
| `MediaFetch.FailureBudget` | src/wa_service/worker.py:311-360 | failures, resolutions and downloads left fall with the recorded attempts |
| `MediaFetch.MediaAttemptBound` | src/wa_service/worker.py:311-360 | any serial sequence of runs for a file has at most 4 failing ones with at most 7 resolutions and 7 downloads in them |
| `MediaFetch.SevenFailedDownloads` | src/wa_service/media/fetch.py:95-116 | the bound of 7 is reached |
| `DiPoll.Classify` | src/wa_service/media/di_poll.py:84-108 | terminal exactly for a readable 200 with a final status, which is passed on with its type as it is; pending for an unfinished one; retryable exactly for a lost connection or a 5xx; an error for good otherwise |
| `DiPoll.ChainEnds` | src/wa_service/worker.py:432-453 | every chain stops at the first poll that is not inconclusive, or at the seventh |
| `DiPoll.ChainDelays` | src/wa_service/worker.py:549-570 | the delays scheduled are the first entries of the table |
| `DiPoll.ChainIsBounded` | src/wa_service/worker.py:96-99 | at most 7 polls, with delays 3, 5, 8, 13, 21, 34 in order, 84 s in all, for every outcome sequence; the 55 s entry is never used |
| `DiPoll.ParksIff` | src/wa_service/worker.py:432-453 | a chain parks exactly when a fatal error comes first or all 7 polls are inconclusive |
| `Outbox.Table.EnqueueReply` | src/wa_service/wa/outbox.py:24-69 | a pending row of the same session, kind and non-empty key is returned instead of a new row, and two raise; a new row is pending, unclaimed and due at the time given or now, with every field named |
| `Outbox.Table.NextToClaim` | src/wa_service/wa/outbox.py:85-92 | the unlocked eligible row with the least send_after |
| `Outbox.Table.ClaimPending` | src/wa_service/wa/outbox.py:72-97 | per row: pending for over 23 h is skipped, a claimed one is counted and was due, pending, and claimed at most twice; the earliest unlocked such rows up to the limit; all else stays |
| `Outbox.AnyClaimableMayBeTaken` | src/wa_service/wa/outbox.py:85-92 | with any rows locked, exactly the distinct eligible ids within the limit can be claimed |
| `Outbox.ClaimWindow` | src/wa_service/wa/outbox.py:72-97 | claimed rows lie between now - 23 h and now, have attempts left, and are within the limit |
| `Outbox.ExhaustedRowExpires` | src/wa_service/wa/outbox.py:72-97 | a pending row with 3 attempts is never claimed and is skipped at the first claim after its window, not before |
| `Outbox.Table.MarkSent` | src/wa_service/wa/outbox.py:100-104 | the row is sent, whatever its state |
| `Outbox.Table.MarkFailed` | src/wa_service/wa/outbox.py:107-122 | failed with its error, or pending again with it and held back 60, 120 or 240 s after the first, second or third attempt, nothing else changed |
| `Outbox.EnqueueIs` | src/wa_service/wa/outbox.py:24-69 | what the lookup and the insert allow is exactly that |
| `Outbox.ClaimIs` | src/wa_service/wa/outbox.py:72-97 | what expiry and claim do to each row is exactly that |
| `Outbox.FailureIs` | src/wa_service/wa/outbox.py:107-122 | the back-off in seconds |
| `Outbox.RetryKeepsTerminalIffPending` | src/wa_service/wa/outbox.py:114-122 | a retryable failure keeps every terminal row exactly when its own row is pending |
| `Outbox.FailureKeepsTerminalIff` | src/wa_service/wa/outbox.py:107-112 | a permanent failure does so exactly when its row is pending or already records it |
| `Outbox.SentKeepsTerminalIff` | src/wa_service/wa/outbox.py:100-104 | an acknowledgement keeps every terminal row exactly when its row is pending or already records it |
| `OutboxRuns.CallBound` | src/wa_service/worker.py:832-910 | with any overlap and crashes, attempts counts claims, is at most 3 and bounds a row's Meta calls, and a run makes at most 3 calls per row |
| `OutboxKept.TerminalKeptIff` | src/wa_service/wa/outbox.py:24-122 | of all steps of drains, enqueues and crashes, exactly those change a sent, failed or skipped row that record on it a retry or another outcome than it has |
| `OutboxKept.AbsorbingIff` | src/wa_service/wa/outbox.py:100-122 | however drains overlap, rows terminal at any moment of a run stay unchanged at every later one if and only if no step of it is such a record |
| `OutboxKept.RetryKeepsKeysIff` | src/wa_service/wa/outbox.py:114-122 | a retryable failure keeps the pending dedup keys unique if and only if no other pending row holds the key of the row it marks |
| `OutboxKept.KeysKeptIff` | src/wa_service/wa/outbox.py:24-122 | of all steps, enqueues, expiries, claims, acknowledgements, permanent failures and crashes keep the keys unique in any state; only that failure breaks them |
| `OutboxKept.KeysAlongIff` | src/wa_service/wa/outbox.py:36-122 | however drains overlap, the keys are unique throughout a run if and only if no step of it is such a failure |
| `OutboxKept.KeysGiveOneTwin` | src/wa_service/wa/outbox.py:36-48 | unique keys leave the dedup lookup at most one row |
| `OutboxSerial.TerminalRowsAbsorb` | src/wa_service/wa/outbox.py:100-122 | with serial drains, no sent, failed or skipped row ever changes |
| `OutboxSerial.DedupIsSingleValued` | src/wa_service/wa/outbox.py:36-48 | with serial drains at most one pending row exists per session, kind and key, so the lookup never raises |
| `OutboxSerial.AcksAreConserved` | src/wa_service/worker.py:871-910 | with serial drains, a row's acknowledged Meta calls are those lost by a drain that died before recording them, plus one if the row is sent or its acknowledgement is held; so a second delivery happens exactly when an acknowledgement was lost and another followed |
| `OutboxOverlap.OverlapRevivesSentRow` | src/wa_service/wa/outbox.py:107-122 | with overlapping drains a run sends a row, makes it pending again and leaves the lookup two rows |
| `OutboxOverlap.OverlapFailsSentRow` | src/wa_service/worker.py:862-867 | with overlapping drains a run sends a row and ends with the row failed, without any retry |
| `OutboxLateness.LatenessBound` | src/wa_service/wa/outbox.py:72-122 | with serial drains recording within L, no row is claimed later than first send_after + 3 x 82800 s + 60 s + 120 s + 2L |
| `OutboxLateness.LatenessPerSend` | src/wa_service/worker.py:832-910 | the same with 2L = 40 l when a drain spends at most l on each row |
| `OutboxBackoff.NotBeforeBackoff` | src/wa_service/wa/outbox.py:114-121 | however drains overlap and crash, a row refused retryably after its n-th claim is not claimed again before 60 s later if n is 1, 120 s if n is 2, and never if n is 3 |
| `OutboxDrain.DrainIsPaced` | src/wa_service/worker.py:839-910 | a drain whose rows take at most l each is such a drain |
| `OutboxDrain.SendOne` | src/wa_service/worker.py:844-910 | one claimed row, as steps of the machine and as fields of the row: left when the contact is gone, failed as NO_ROUTE or UNKNOWN_KIND, else sent or failed as Meta answered |
| `OutboxDrain.CallMeta` | src/wa_service/worker.py:871-910 | the call and the record of its answer |
| `OutboxDrain.GiveUp` | src/wa_service/worker.py:852-901 | a row whose contact is gone is left; one without a route or of an unknown kind fails for good |
| `OutboxDrain.SendOutbox` | src/wa_service/worker.py:832-910 | a whole drain is a run of the machine and leaves the machine's table |
| `Rows.FirstInFilter` | src/wa_service/api/routes.py:46-50 | a query gives the same row on one owner's rows alone if and only if the row it selects, if any, is that owner's |
| `Rows.UpdateInFilter` | src/wa_service/api/routes.py:46-50 | then an update of it shows in the owner's rows as the same update |
| `Api.Service.PutContact` | src/wa_service/api/routes.py:239-257 | the first row with the phone is re-bound field by field, or refused with 409 when it is another tenant's; a free phone gets a new row |
| `Api.Service.ListContacts` | src/wa_service/api/routes.py:261-278 | exactly the tenant's contacts with the status and user asked for, in order, from the offset and up to the limit |
| `Api.Service.GetContact` | src/wa_service/api/routes.py:281-291 | the tenant's contact or 404 |
| `Api.Service.PatchContact` | src/wa_service/api/routes.py:294-308 | 422 without fields, 404 without the tenant's row, else that row with the given fields and no other changed |
| `Api.Service.RevokeContact` | src/wa_service/api/routes.py:311-322 | 204 exactly when the tenant has the contact, whose status is then revoked and nothing else; else 404 |
| `Api.Service.CreateRoute` | src/wa_service/api/routes.py:331-345 | an active route with the given fields unless the number is registered, which is 409 |
| `Api.Service.ListRoutes` | src/wa_service/api/routes.py:348-356 | exactly the tenant's routes, in order |
| `Api.Service.PatchRoute` | src/wa_service/api/routes.py:359-373 | 422, 404, or the tenant's route with the given fields and no other changed |
| `Api.Service.GetMessage` | src/wa_service/api/routes.py:212-222 | the tenant's message or 404 |
| `Api.Service.Reserve` | src/wa_service/api/routes.py:110-156 | 409 exactly when no route of the tenant is active; a reservation carries the number of the tenant's first active route and a new row its id; the verdict on a message found under the key; every field of a new row |
| `Api.Service.RecordSent` | src/wa_service/api/routes.py:197-205 | the tenant's message is sent with the wamid and no error, nothing else changed, and answered with 201 |
| `Api.Service.RecordFailed` | src/wa_service/api/routes.py:182-190 | the tenant's message is failed with the error, nothing else changed, and answered with 502 |
| `Api.ReserveIs` | src/wa_service/api/routes.py:110-156 | the same for the reservation as a function, for any tables |
| `Api.PutContactIs` | src/wa_service/api/routes.py:239-257 | the same for binding a phone |
| `Api.ListContactsIs` | src/wa_service/api/routes.py:261-278 | the same for the listing |
| `Api.RevokeContactIs` | src/wa_service/api/routes.py:311-322 | the same for revoking |
| `TenantPurge.ForeignCallsKeepRows` | src/wa_service/api/routes.py:110-373 | no call of another tenant changes a tenant's rows, with no proviso |
| `TenantPurge.LocalIffFree` | src/wa_service/api/routes.py:110-373 | for any tables and any call: the call answers and acts the same on the tenant's rows alone if and only if no other tenant holds the unique value that decides its branch; and the answer alone tells |
| `TenantPurge.PurgeIsInvisibleIff` | src/wa_service/api/routes.py:110-373 | for any tables and any history: deleting all other tenants' calls leaves the tenant's answers as they were if and only if each of its calls was free at its moment, and then its rows end the same |
| `TenantPurge.ApartIsFreeAlong` | src/wa_service/api/routes.py:110-373 | calls and rows that never collide are free throughout, in any order |
| `TenantPurge.PurgeIsInvisible` | src/wa_service/api/routes.py:110-373 | hence the purge is invisible if numbers do not collide |
| `TenantPurge.FirstBindingDecides` | src/wa_service/api/routes.py:247-256 | of two tenants binding one phone, the purge shows to the later one and not to the earlier one, though their calls collide either way |
| `TenantPurge.CollisionIsVisible` | src/wa_service/api/routes.py:247-256 | the two answers of the later one: turned away, or bound once the other tenant is purged |
| `SendProtocol.SendInvariants` | src/wa_service/api/routes.py:110-205 | for any overlap and crashes: one row per tenant and key, every attempt carries the stored payload, two attempts mean a failure recorded before, every replay returns an acknowledged wamid |
| `SendProtocol.InvRun` | src/wa_service/api/routes.py:110-205 | the invariant behind it holds in every state of every run |
| `SendProtocol.AtMostOnceOn` | src/wa_service/api/routes.py:147-205 | a row whose own retries each begin after the previous attempt recorded its outcome gets at most one acknowledged send, whatever other callers do to other rows |
| `SendProtocol.AtMostOnce` | src/wa_service/api/routes.py:147-205 | hence so does a tenant and key |
| `SendProtocol.SentKeptIff` | src/wa_service/api/routes.py:182-205 | in every reachable state, of all steps exactly those change a sent row that record on it a refusal, another wamid or a cleared error |
| `SendProtocol.SentStaysIff` | src/wa_service/api/routes.py:182-205 | however callers overlap, a sent row stays as it is throughout a run if and only if no step of it is such a record |
| `SendProtocol.SentAbsorbs` | src/wa_service/api/routes.py:182-205 | in particular it does when its own retries are safe |
| `SendProtocol.RecordedRunIsSafe` | src/wa_service/api/routes.py:147-156 | waiting for the record is a safe way to retry |
| `SendProtocol.CrashedFirstIsNeverResent` | src/wa_service/api/routes.py:154-155 | a row whose first attempt died is never sent again, with no hypothesis on callers |
| `SendProtocol.RetryIsSafeIff` | src/wa_service/api/routes.py:147-205 | in every reachable state, a retry cannot lead to a second acknowledged send exactly if every attempt on its row is over and unacknowledged: then not even if only its own row's callers are careful from there on, and otherwise even if all are |
| `SendProtocol.UnsafeRetrySendsTwice` | src/wa_service/api/routes.py:156 | in every reachable state, a retry begun while an attempt is live or acknowledged can end in two acknowledged sends |
| `SendProtocol.LateFailureReopens` | src/wa_service/api/routes.py:182-190 | a failure recorded late overwrites sent and the row is sent again |
| `SendProtocol.OverlappingRetriesSendTwice` | src/wa_service/api/routes.py:156 | the documented promise fails from an empty table and an active route |
| `SendProtocol.SendMessage` | src/wa_service/api/routes.py:94-207 | one caller from request to response: the reservation, and if there is one Meta's answer recorded, 201 with the sent row or 502 with the failed one |
| `SendProtocol.SendIsARun` | src/wa_service/api/routes.py:94-207 | that caller's steps are a run of the protocol |
| `SendProtocol.RepeatIsReplay` | docs/api.md:81-88 | repeating an acknowledged request answers 200 with the same wamid without asking Meta; another body is refused |
| `Checklist.DefaultsListed` | src/wa_service/deal/checklist.py:119-137 | the default list names each required type of a deal type once, with its requirement |
| `Checklist.InitialiseMeans` | src/wa_service/deal/checklist.py:74-86 | missing defaults are added unsatisfied and every existing item stays |
| `Checklist.FreshChecklist` | src/wa_service/deal/checklist.py:74-86 | a deal without items gets exactly the eight common documents and the two of its type as blocking, the registration book as optional, none satisfied |
| `Checklist.ReinitialiseKeepsIff` | src/wa_service/deal/builder.py:139-144 | initialising an existing deal under another type keeps its checklist exactly when that type is the same or plain retail |
| `Checklist.ListingComplete` | src/wa_service/deal/checklist.py:38-47 | the query lists a type exactly when the deal has the item |
| `Checklist.SortIs` | src/wa_service/deal/checklist.py:38-47 | the order of the document types in the lists |
| `Checklist.Table.Initialise` | src/wa_service/deal/checklist.py:74-86 | the loop inserts the defaults and counts what it inserted |
| `Checklist.Table.MarkSatisfied` | src/wa_service/deal/checklist.py:89-99 | the item, if there is one, is satisfied with the document; every other item stays |
| `Checklist.Table.CountRows` | src/wa_service/deal/checklist.py:49-61 | the loop counts the blocking rows and lists missing and received in the query's order |
| `Checklist.Table.Build` | src/wa_service/deal/checklist.py:30-71 | raises without a booking number; complete exactly when there is a blocking item and none is missing; missing and received are exactly those items in the query's order; the counts add up |
| `Sessions.TransitionsMove` | src/wa_service/wa/session.py:59-191 | every transition from every state moves the session on, keeps its owner and writes its deal only on leaving processing |
| `Sessions.AnyFlushableMayBeClaimed` | src/wa_service/wa/session.py:117-136 | with any rows locked, exactly the distinct due sessions within the limit can be claimed |
| `Sessions.ClaimKeeps` | src/wa_service/wa/session.py:117-136 | claimed sessions go from collecting to processing, nothing else changes, one open session per contact |
| `Sessions.GetOrCreateKeeps` | src/wa_service/wa/session.py:23-56 | the session returned is the contact's only open one, new exactly when there was none |
| `Sessions.RegisterKeeps` | src/wa_service/wa/session.py:90-114 | a wamid has one row; a repeated one returns the row there is |
| `Sessions.AdvanceKeepsOneOpen` | src/wa_service/wa/session.py:23-56 | moving sessions on never opens a second one for a contact |
| `Sessions.Table.GetOrCreateSession` | src/wa_service/wa/session.py:23-56 | returns the contact's open session, or appends a collecting one due in 90 s |
| `Sessions.Table.RecordFileArrival` | src/wa_service/wa/session.py:59-70 | only a collecting session's timer, file count and byte total move |
| `Sessions.Table.RegisterFile` | src/wa_service/wa/session.py:73-114 | appends the file unless its wamid is there, and returns the row with that wamid |
| `Sessions.RegisterIs` | src/wa_service/wa/session.py:73-114 | the id is that of the file with the wamid, which is the given file unless the wamid was there |
| `Sessions.Table.ClaimSessionsForFlush` | src/wa_service/wa/session.py:117-136 | the unlocked collecting sessions whose timer has run out, longest overdue first and up to the limit, are processing; all else stays |
| `Sessions.Table.TransitionToConfirming` | src/wa_service/wa/session.py:139-150 | a processing session is linked and confirming; any other stays |
| `Sessions.Table.ConfirmDeal` | src/wa_service/wa/session.py:153-162 | a confirming session goes to gaps_pending; any other stays |
| `Sessions.Table.MarkComplete` | src/wa_service/wa/session.py:165-169 | complete from any state |
| `Sessions.Table.ParkSession` | src/wa_service/wa/session.py:172-180 | parked unless complete or cancelled |
| `Sessions.Table.EscalateSession` | src/wa_service/wa/session.py:183-191 | escalated unless complete, cancelled or escalated |
| `Sessions.Table.MaxSeqOf` | src/wa_service/worker.py:181-184 | the largest sequence number of the session's files |
| `Sessions.Table.GetSessionFiles` | src/wa_service/wa/session.py:194-206 | the session's files under the projection |
| `Sessions.FilesAre` | src/wa_service/wa/session.py:194-206 | the query returns exactly the session's rows in table order, without document, type and facts under the projection as written |
| `Deals.FindMeans` | src/wa_service/deal/builder.py:53-96 | a lookup returns exactly: the deal with the tenant's booking number; else, given a customer and a model, a deal of that tenant and model booked within three days whose similarity is greatest and at least 0.6; else nothing |
| `Deals.SettleStep` | src/wa_service/worker.py:649-740 | one flushed session, its lookup as old as may be and others settled since, keeps one deal per number and one review per deal and reason; fuzzy leaves deals alone; only an exact hit confirms, and only its deal; a miss adds a deal exactly when the number is still free |
| `Deals.StaleLookupKeepsBook` | src/wa_service/deal/builder.py:126-144 | on a conflict the insert adds nothing and hands out the deal with the number |
| `Deals.DealTable` | src/wa_service/deal/builder.py:115-180 | the same over any sequence of flushed sessions, racing or not |
| `Deals.ConfirmedByExactHit` | src/wa_service/deal/builder.py:154-164 | a deal that became confirmed was hit exactly by a session in between, also when lookups were stale |
| `Deals.Table.FindExistingDeal` | src/wa_service/deal/builder.py:43-96 | runs the two queries: what it returns is what `FindMeans` describes |
| `Deals.Table.MostSimilar` | src/wa_service/deal/builder.py:80-88 | a candidate of greatest similarity, if there is one |
| `Deals.Table.CreateProvisionalDeal` | src/wa_service/deal/builder.py:99-151 | the deal is added unless the tenant has the number, and the id is that of the deal with the number |
| `Deals.Table.ConfirmDeal` | src/wa_service/deal/builder.py:154-164 | only a provisional deal of the tenant is confirmed |
| `Deals.Table.RaiseAmbiguousReview` | src/wa_service/deal/builder.py:167-180 | one task per deal and reason |
| `Worker.InsertDeduplicates` | src/wa_service/wa/webhook.py:44-84 | one inbox row per first wamid; a redelivery adds nothing |
| `Worker.Inbox.Insert` | src/wa_service/wa/webhook.py:44-84 | a pending row, or nothing for a body that cannot be parsed or a first wamid that is there |
| `Worker.Inbox.Mark` | src/wa_service/worker.py:916-922 | the row's state is set |
| `Worker.ResolvedIsCoherent` | src/wa_service/wa/router.py:39-108 | a resolved context is an active contact reached through an active route of the same tenant |
| `Worker.ResolveFullContext` | src/wa_service/wa/router.py:75-108 | tenant, contact, org unit and locale of the first active contact bound to the sender under the tenant of the first active route; which routing error, or the missing org unit, otherwise |
| `Worker.ResolveIs` | src/wa_service/wa/router.py:39-108 | the same for routing as a function |
| `Worker.ProcessMessages` | src/wa_service/worker.py:170-241 | the loop over the messages is the function that `ReceiveIs` describes |
| `Worker.ReceiveIs` | src/wa_service/worker.py:199-241 | every media message in order counts, moves a collecting session's timer to 90 s, gets the next number and defers the fetch of the file with its wamid; new files are pending, unstored, and theirs alone |
| `Worker.ReceiveKeeps` | src/wa_service/worker.py:199-241 | old files stay, new ones belong to the session with later numbers, wamids stay unique, one fetch per media message |
| `Worker.SatisfyConfirmedFiles` | src/wa_service/worker.py:783-799 | the loop marks every file with a type and an evidence id |
| `Worker.ItemsAre` | src/wa_service/worker.py:783-799 | each item of the deal is satisfied with the evidence of the last file of its type that has one; every other item stays |
| `Worker.StartDeal` | src/wa_service/worker.py:658-719 | the provisional deal, field by field, unless the number is taken; the missing defaults, the link of a processing session, the items its files satisfy |
| `Worker.AskForReview` | src/wa_service/worker.py:721-728 | one open question per deal and a parked session |
| `Worker.JoinDeal` | src/wa_service/worker.py:729-740 | confirmation, the items the files satisfy, and completion exactly when the deal's checklist is complete |
| `Worker.SettleSession` | src/wa_service/worker.py:645-769 | for a ready session: the fields of the first booking form, the lookup, and the branch it decides |
| `Worker.RunTransaction` | src/wa_service/worker.py:607-769 | the branches of the transaction, equal to its function |
| `Worker.ProcessSession` | src/wa_service/worker.py:607-769 | the whole transaction by what is in the tables: nothing for a missing session; parked while a file is unstored or untyped; one provisional deal with the session's tenant, org unit and contact and the form's number, customer, model, date and type; one open question for an alike deal; or the known deal confirmed by the contact, its items satisfied and the session completed exactly when no blocking item is left; and which reply |
| `Worker.ProcessIs` | src/wa_service/worker.py:607-769 | the same for the transaction as a function, for any tables |
| `WorkerTasks.FlushReadySessions` | src/wa_service/worker.py:593-601 | a flush is a run of the machine; at most 50 overdue sessions, longest overdue first, go to processing with a task of two retries each, the others stay |
| `WorkerTasks.ProcessInboxRow` | src/wa_service/worker.py:115-167 | an inbox row from signature to verdict is a run of the machine, also when it is missing or raises midway; an unsigned row is ignored and leaves sessions, files and tasks alone; it is done exactly when it is signed, its sender resolves and nothing raises; then its payload is in the contact's open session and every media file has a fetch |
| `WorkerTasks.HandleRow` | src/wa_service/worker.py:132-165 | the transaction of a row that is there, with the same verdicts and nothing kept when it raises |
| `WorkerTasks.HandleIs` | src/wa_service/worker.py:132-167 | the machine's step does exactly that to a row, for any state |
| `WorkerTasks.RunProcessSession` | src/wa_service/worker.py:607-740 | process_session with its reply is one step of the machine, rolled back and retried when the dedup lookup raises |
| `WorkerTasks.RepliedMeans` | src/wa_service/worker.py:607-740 | such an invocation leaves the outcome of process_session with its reply enqueued, or everything as it was |
| `WorkerTasks.FetchAndStoreFile` | src/wa_service/worker.py:251-397 | one invocation is a run of the machine; the file ends failed, quarantined or stored with its evidence, with an attempt more on a failure; a missing row ends it; it is started again exactly on a failed download that is not retryable, and polls exactly after a stored file |
| `WorkerTasks.DownloadAndStore` | src/wa_service/worker.py:311-341 | the invocation from the download on |
| `WorkerTasks.StoreFetched` | src/wa_service/worker.py:331-397 | POST, commit and deferred poll |
| `WorkerTasks.PollDiDocument` | src/wa_service/worker.py:406-546 | one poll is a run of the machine, by DI's reply: a final answer gives the file its type and a confirmed form its facts; only a confirmed or verified one marks the item of the linked deal, so a rejected or failed one leaves every item as it was; otherwise the session parks on an error for good or the seventh poll, or the poll defers itself by the next delay |
| `WorkerTasks.StopPolling` | src/wa_service/worker.py:432-446 | the session parks, nothing else changes |
| `WorkerTasks.PersistAnswer` | src/wa_service/worker.py:455-546 | a terminal answer: type and booking facts persisted, item marked, flush advanced |
| `WorkerTasks.SatisfyLinked` | src/wa_service/worker.py:489-508 | the link is read and the item marked, in two steps |
| `WorkerTasks.AdvanceFlush` | src/wa_service/worker.py:519-546 | the session is due now exactly when no stored file waits for its type |
| `WorkerTasks.AnyUnpolled` | src/wa_service/worker.py:523-531 | whether a stored file of the session has no type |
| `WorkerTasks.ParkOnDiSla` | src/wa_service/worker.py:579-587 | parked from any state |
| `Pipeline.Bind` | src/wa_service/media/store.py:69-73 | audit-core's evidence id is bound to the wamid and existing bindings stay |
| `Pipeline.WebhookIs` | src/wa_service/wa/webhook.py:44-84 | a webhook is written down and taken up by a task with three retries, unless its first wamid is there |
| `Pipeline.RaisedIs` | src/wa_service/worker.py:114-250 | an invocation that raises starts anew with one retry less, or is gone with the last |
| `PipelineSafety.ApiKeepsContacts` | src/wa_service/api/routes.py:239-322 | no `/v1` call changes a contact's id or tenant |
| `PipelineSafety.StepSafe` | src/wa_service/worker.py:115-825 | every step of every task keeps the invariant and changes rows only as allowed |
| `PipelineSafety.RunSafe` | src/wa_service/worker.py:115-825 | so does every run |
| `PipelineSafety.SessionLifecycle` | src/wa_service/wa/session.py:23-191 | over all runs: left sessions never return, one open session per contact, claimed once, linked once and for good |
| `PipelineSafety.TenantCoherence` | src/wa_service/wa/router.py:75-108 | session, files and linked deal carry the tenant of the session's contact |
| `PipelineOrder.FilesInOrder` | src/wa_service/wa/session.py:194-206 | over all runs the session's files in table order are exactly its rows in strictly ascending received_seq, so the first booking form is the one received first |
| `PipelineOrigin.FilesAreSigned` | src/wa_service/worker.py:132-241 | over all runs every file's wamid is that of a media message of an inbox row whose signature was valid |
| `PipelineOrigin.DealsAreFresh` | src/wa_service/deal/builder.py:115-164 | over all runs a deal that was not there at the start is provisional or confirmed |
| `PipelineOrigin.ExactHitConfirms` | src/wa_service/worker.py:729-734 | in every state an exact hit that goes through leaves a provisional deal confirmed by the session's contact, and any other as it was |
| `PipelineSafety.ExactlyOnceEvidence` | src/wa_service/worker.py:338-379 | one inbox row, one file row and one evidence per wamid under any redelivery, repetition and crash; a file's evidence never changes |
| `PipelineSafety.NoLostSatisfaction` | src/wa_service/worker.py:473-508 | once a poll is through with a confirmed type, its session's deal has the item satisfied, then and ever after, if the poll saw the link, whichever session registered the file, or if the file is the session's own, linked before or after |
| `PipelineSafety.MarkedIsNeverLost` | src/wa_service/worker.py:497-508 | in every reachable state an item the poll marks is satisfied ever after on the session's deal, for any file |
| `PipelineSafety.LinkDecides` | src/wa_service/worker.py:473-508 | a poll that saw no link is decided by the later one: its document counts for the new deal if and only if the deal does not ask for the type or the transaction sees a file of the type in the session; and if it counts then, it counts ever after |
| `PipelineSafety.LinkSatisfiesIff` | src/wa_service/worker.py:658-687 | an item of a new deal starts satisfied exactly when a file registered in the session itself has the type and the query shows it |
| `PipelineSafety.CompletionSafety` | src/wa_service/worker.py:658-825 | a deal of process_session has exactly its type's items, satisfied only with the evidence of a file so classified; satisfaction never reverts; a complete session's deal still has every blocking item satisfied |
| `PipelineSafety.DealsOverRuns` | src/wa_service/deal/builder.py:115-180 | the deal table theorem over all runs of the pipeline |
| `PipelineSafety.ConfirmedByExactHit` | src/wa_service/worker.py:729-734 | over all runs, a deal that becomes confirmed was provisional and carried the booking number of a ready session of its tenant that was flushed |
| `PipelineSafety.ReadyIff` | src/wa_service/wa/session.py:194-206 | as written a flushed session is ready exactly when it has no file; with the columns, exactly when all files are stored and typed |
| `PipelineSafety.KnownDealKept` | src/wa_service/worker.py:729-740 | an exact hit keeps all tables in order, changes no link, and completes the session only with a complete deal |
| `PipelineSafety.NewDealSafe` | src/wa_service/worker.py:658-719 | creating and linking a deal keeps the invariant, settled polls included |
| `PipelineSafety.HandleSafe` | src/wa_service/worker.py:141-167 | handling an inbox row keeps the invariant, also when it raises after some messages |
| `PipelineWitness.RedeliveredFileIsLost` | src/wa_service/worker.py:212-241 | a run in which a document redelivered into a later session is polled there to a confirmed type and left unsatisfied by that session's deal, for both projections |
| `PipelineQueue.StepPays` | src/wa_service/worker.py:199-601 | every step that does something lowers the weight by at least one, a webhook raises it by at most what it brings |
| `PipelineQueue.OutboxPays` | src/wa_service/wa/outbox.py:72-122 | every outbox step that changes something lowers the outbox's share |
| `PipelineQueue.HandlePays` | src/wa_service/worker.py:170-241 | handling a row gives up what its session and fetches weigh |
| `PipelineQueue.ProcessPays` | src/wa_service/worker.py:607-740 | a flushed session adds at most one outbox row |
| `PipelineQueue.RunPays` | src/wa_service/worker.py:199-601 | effective steps plus what is left weigh at most the start plus what arrives |
| `PipelineQueue.BoundedWork` | src/wa_service/worker.py:199-601 | from the start, every schedule makes at most 180 effective steps per webhook and 136 per file |

## Left out

- PipelineSafety.NoLostSatisfaction: does not cover a poll that saw no link and was made for a session other than the one its file is registered in; there the property can fail (`RedeliveredFileIsLost`), and `LinkDecides` says exactly when it holds.
- Worker.ProcessSession: takes lookup and insert as one atomic step, as `Pipeline` does with every transaction; what the deal table keeps when sessions race between the two is `Deals.SettleStep` and `Deals.DealTable`, and `ReinitialiseKeepsIff` says what the loser's initialisation does to the winner's checklist.
- WorkerTasks.PollDiDocument: what the facts query of a booking form yields is an arbitrary input, already in the form `process_session` reads; its request and the parsing of raw facts are left out.
- The text of the gap message and of the other copy.
- HTTP transport, the Meta client's payload shapes and the web framework: foreign calls; only their outcomes appear.
- Postgres row-level security for the worker: the worker is assumed to see its rows, although some tasks query before setting the tenant.
- Request validation, identifiers and timestamps of API rows, the session read endpoints, and the round trip of payloads through JSON.
- Signature and token comparison, settings, migrations runner and containers: configuration and library work.
- `redact_image_bytes` and `needs_redaction`: image libraries and a name list.
- Case folding of declared hashes: lower-casing is any given function on strings.
- File and deal columns that no decision depends on (names, captions, MIME types, sizes of single files, expiry; mobile, variant and origin of a deal).
- HTTP errors that escape URL resolution (`src/wa_service/media/fetch.py:40`): a crash of the invocation, outside the attempt count.
- A fetch task that runs before the transaction that deferred it commits finds no row and ends; it is covered by the crash step.
