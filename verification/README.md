# Credentials issuer: a verified model

The issuer sells bundles of blind-signed credentials. A buyer sends `k` blinded blanks under an epoch
id; the issuer checks the request, signs every blank with that epoch's RSA key, records the sale in one
database transaction, and answers with the signatures. This project models the parts of it that hold
state, and proves what every run of them guarantees.

The project rests on one chain of results:

- **Rotation** binds every epoch id up to 2^53 to one key pair, whatever the clock does (`RotationRuns`). Rotators
  that race for the Vault secret write a chain of versions (`VaultRotation`) whose keyrings are one such history
  (`VaultHistory`), so a race cannot bind an id twice either.
- **The keys service** holds the last good keyring it read, and announces exactly its keys (`KeysServices`).
- **The signing pool** (`SignerPool*`) signs each blank under the key that was loaded at dispatch, whatever
  timeouts, worker deaths, replacements and reloads happen in between; it loses no slot and never
  deadlocks.
- **Issuance** (`Issuance*`) can answer a retried request without having stored a response: each delivery is
  covered by exactly one commit, each idempotency key commits once, drips keep their interval, and the
  counters are exact.
- `EndToEnd` puts these together. Issuance over any number of replicas, each with its own polls, pool and
  reloads, is a run of the issuance protocol in which BlindSign is a function of epoch and blank; so all
  answers under one idempotency key are byte for byte the same.
- **Reconciliation** then raises an alarm exactly when there is something to raise one for.

Beneath these lie small exact cores: the checked raw RSA operation (`RsaRaw`), strict base64 (`Base64`),
request validation (`BundleRequestValidation`), the request fingerprint (`Fingerprint`), exact decimals
(`Decimal`), decimal epoch ids over double-precision numbers (`EpochIds`) and the sliding-window limiter
(`RateLimiting`).

## How it is built

Each stateful part has two layers. A state machine over values (`SignerPoolModel`, `IssuanceModel`, the
`World` of `VaultRotation`, `Touch` and `After` of `RateLimiting`) says what one uninterrupted segment of
the program does; a run is any sequence of enabled steps, so every interleaving is covered. Beside it, a
class with mutable fields carries the code's own statements and loops, and each method is proved to make
exactly the step that the machine makes. The theorems are about runs of the machine.

- In the pool, a segment between two awaits is one step. `Handed` is the gap in which `acquire` has
  resolved and nothing is dispatched yet: a slot that is retired in that gap takes the request's message
  to its grave, and only the request's timer ends the request (`SignerPoolGap.OnlyItsTimerEndsAnOrphan`).
- In issuance, a request is counted by the limiter (`CheckRate`), then validated and its epoch checked against
  the keyring and clock of the replica that serves it (`CheckOrder`), then signed, recorded and answered. Each
  check carries its guard, so a refusal happens exactly when the code refuses. One `Record` step is one
  transaction with its own start timestamp; timestamps need not follow commit order. Signing may fail, a
  transaction may roll back, and a request may be lost with its process in any phase before delivery.
- Cryptography enters as function parameters with stated laws: BlindSign is a function of key and blank,
  SHA-256 is injective, the root key verifies what it signed, and an RSA key's exponents undo each other.

Where the code and its comments disagree, the model follows the code:

- `scripts/rotate-epoch.ts:14-15` and `apps/backend/src/keys/keyring.ts:132-134` say that retiring an
  epoch *extends* its `not_after` to now plus grace. The code takes the smaller of the two, so rotation
  never lengthens a window (`Rotation.StaleReaderIsHarmless`, `RotationRuns.RetiredEpochsEndOnTime`).
- A client that retries a pickup whose response it never saw is promised its credentials
  (`apps/backend/src/entitlements/entitlements.service.ts:68-71`). That holds under conditions only. Whatever else
  goes on, a request with the reference and key of a commit never commits, and once it has come to an end it was
  answered, with that commit's response, if and only if none of its own steps refused it
  (`IssuanceRetries.RetryIsAnsweredUnlessRefused`): it was within its budget, its epoch was still usable, it
  asked for the same epoch and blanks, and nothing broke down. Three ways of losing a spent drip are written out
  as runs:
  - the epoch's window has closed since: the check of the epoch comes before the key is looked at
    (`IssuanceRuns.ExpiredRetryIsRefused`);
  - the reference is over its budget: retries are counted too (`IssuanceRuns.LimitedRetryIsRefused`);
  - the id is spelled in another letter case: the schedule ignores case, but the key is filed under the id as it
    was spelled, so an early pickup is let through exactly when something was committed under its key and its very
    spelling (`IssuanceRuns.EarlyRetryNeedsTheSameSpelling`, `IssuanceRuns.RespelledRetryIsRefused`).
- Reusing a key for a different request is promised to be a conflict, because it would issue signatures
  uncounted (`apps/backend/src/issuance/issuance.service.ts:99-107`). The fingerprint separates its fields by
  NUL, and neither requests nor keyrings are checked for a NUL in an epoch id. As strings, the hash inputs of two
  requests are equal exactly when the requests are, or when the epoch of the one with fewer blanks has swallowed
  the first blanks of the other (`Fingerprint.InputsEqualIff`); that different strings have different UTF-8
  encodings is taken as given, and fails for lone surrogates, at one bundle size too. While no accepted order
  passes for another one that the database can store, every delivery is covered
  (`IssuanceTheorems.EveryDeliveryIsCoveredOnce`); for any two of which one does, there is a run that delivers it
  uncounted (`IssuanceRuns.CollidingRetryIsUncounted`). It takes two bundle sizes and a keyring that was not made
  by rotation: orders of one size never collide (`IssuanceTheorems.SafeOrdersDoNotCollide`), nor do orders under
  rotated epochs (`EndToEnd.ServedRunIsRun`).
- The limit on requests is meant for a payment reference or entitlement
  (`apps/backend/src/payment/rate-limiter.service.ts:7-18`), but it counts the id as it was spelled. An entitlement
  is held to the maximum if and only if it is presented in a single spelling; n spellings make n budgets
  (`EntitlementBudget.OneBudgetIffOneSpelling`). Its drips are spaced all the same.
- Epoch ids advance by exactly one below 2^53. From there on an id changes at most once more, possibly by
  two, and then stays the same for ever (`EpochIds.IdsAdvanceThenStick`). The rotation after epoch 2^53
  therefore gives that id a second key (`RotationRuns.LastIdIsBoundAgain`), and its keyring parses only if the
  old epoch of that id does not survive (`Rotation.ResultParsesIff`).

## Model

| member | source | states |
|---|---|---|
| `SignerPoolTheorems.SlotHasOneCondition` | apps/backend/src/signing/signer-pool.ts:103-127 | in every state of every run each live slot is in exactly one of four conditions, once: idle, handed to one request, pending under one id, settled and not yet released; dead slots are neither listed nor idle |
| `SignerPoolTheorems.PoolSizeIsConstant` | apps/backend/src/signing/signer-pool.ts:147-215 | once started and not shutting down there are exactly `signingWorkers` distinct live slots; somebody waits only when none is idle, and then every slot is held by a request |
| `SignerPoolGap.CallAddsItsRequest` | apps/backend/src/signing/signer-pool.ts:103-106 | a call adds its request, starts the workers on first use, and moves nobody in the queue |
| `SignerPoolTheorems.IdsNeverReused` | apps/backend/src/signing/signer-pool.ts:108 | two dispatches of one run never carry the same id |
| `SignerPoolTheorems.StepLog` | apps/backend/src/signing/signer-pool.ts:107-122 | any step advances the id counter by the dispatches it makes, at most one, and records that dispatch with the keys then loaded |
| `SignerPoolTheorems.ReplySettlesItsOwnRequest` | apps/backend/src/signing/signer-pool.ts:175-181 | a late reply changes nothing; a reply to a pending id settles precisely the request that dispatched it, on its slot, and touches no other |
| `SignerPoolDelivery.ReplyIsTheSignature` | apps/backend/src/signing/blind-sign.worker.ts:44-61 | in every run the reply to an id is BlindSign of its blank under the key that the material loaded at its dispatch had for its epoch, or the missing-key error if it had none |
| `SignerPoolDelivery.TurnDoesItsMessage` | apps/backend/src/signing/blind-sign.worker.ts:38-63 | one turn of a worker handles exactly the oldest message, replaces all keys or answers under the epoch's key, and touches nothing else |
| `SignerPoolDelivery.RunCarries` | apps/backend/src/signing/signer-pool.ts:113-121 | in every state of every run, what is in flight on a live worker is in that worker's inbox or answered |
| `SignerPoolDelivery.CarriedRequestIsAnswered` | apps/backend/src/signing/signer-pool.ts:112-126 | from every reachable state a request in flight on a live worker can be brought to its end by that worker's turns, with the signature under the keys of its dispatch |
| `SignerPoolDelivery.CallIsAnswered` | apps/backend/src/signing/signer-pool.ts:103-127 | a call that finds an idle slot, in any reachable state, can run through to the signature of its blank under the key loaded for its epoch |
| `SignerPoolTheorems.RetireFailsWhatItCarried` | apps/backend/src/signing/signer-pool.ts:184-204 | retiring a live slot rejects exactly the requests in flight on it, leaves nothing pending there, and leaves every request in flight elsewhere alone |
| `SignerPoolGap.OnlyItsTimerEndsAnOrphan` | apps/backend/src/signing/signer-pool.ts:107-126 | in every run a request in flight on a dead worker stays as it is until its own timer fires, and is then rejected as timed out |
| `SignerPoolGap.GapMakesAnOrphan` | apps/backend/src/signing/signer-pool.ts:107-121 | dispatching to a slot that was retired since it was handed over puts the request in flight on a dead worker |
| `SignerPoolGap.RunOrphans` | apps/backend/src/signing/signer-pool.ts:113-121 | in every state of every run the id of such a request is in no worker's inbox and in no reply |
| `SignerPoolGap.TimerRejects` | apps/backend/src/signing/signer-pool.ts:114-120 | a timer that fires in flight rejects its request as timed out, and its slot is dead afterwards |
| `SignerPoolTheorems.SignedWithKeysLoadedAtDispatch` | apps/backend/src/signing/signer-pool.ts:89-140 | every signature returned is the one inline signing would have returned at the instant of dispatch, under the keyring loaded then |
| `SignerPoolTheorems.DispatchOf` | apps/backend/src/signing/signer-pool.ts:107-121 | every recorded dispatch was made by one step of the run, with the keys loaded in the state before it |
| `SignerPoolTheorems.LiveWorkersCatchUp` | apps/backend/src/signing/signer-pool.ts:89-96 | in every state a live worker that drains its inbox ends up with exactly the loaded key material, and so does inline signing |
| `SignerPoolTheorems.StepQueue` | apps/backend/src/signing/signer-pool.ts:206-215 | a step serves at most the head of the queue, or adds one waiter at its end, or leaves the queue alone |
| `SignerPoolTheorems.RetireQueue` | apps/backend/src/signing/signer-pool.ts:200-203 | outside shutdown, replacing a live worker moves every waiter up one place |
| `SignerPoolTheorems.RunForward` | apps/backend/src/signing/signer-pool.ts:103-127 | no request is forgotten and none moves back to an earlier phase |
| `SignerPoolTheorems.AnythingMayHappen` | apps/backend/src/signing/signer-pool.ts:158-173 | the runs rule nothing out: workers die, replies arrive, timers fire, calls, reloads and shutdown come at any time |
| `SignerPoolTheorems.WaitersAreServedInOrder` | apps/backend/src/signing/signer-pool.ts:206-215 | whoever queued first is served first, in every run |
| `SignerPoolTheorems.ServedOnce` | apps/backend/src/signing/signer-pool.ts:211-215 | a request that has left the queue never queues again |
| `SignerPoolProgress.HeadCanBeServed` | apps/backend/src/signing/signer-pool.ts:107-126 | while running, at most two steps of the main process itself hand the first waiter a slot, even if no worker ever answers |
| `SignerPoolProgress.NoDeadlock` | apps/backend/src/signing/signer-pool.ts:103-127 | from every reachable running state the waiter at position p can be brought to a slot in at most 2(p+1) such steps |
| `SignerPoolInvariant.RunKeeps` | apps/backend/src/signing/signer-pool.ts:103-215 | the pool invariant holds in every state of every run |
| `SignerPoolInvariant.ReleaseKeeps` | apps/backend/src/signing/signer-pool.ts:211-215 | offering a slot leaves it with the first waiter or idle, never both and never neither |
| `SignerPoolInvariant.SpawnKeeps` | apps/backend/src/signing/signer-pool.ts:158-173 | a spawned worker adds one slot and keeps the invariant |
| `SignerPoolInvariant.SettleKeeps` | apps/backend/src/signing/signer-pool.ts:175-181 | settling keeps the invariant, the slot staying with its request until `finally` |
| `SignerPoolInvariant.RetireKeeps` | apps/backend/src/signing/signer-pool.ts:184-204 | retiring keeps the invariant and, outside shutdown, the number of slots |
| `SignerPoolInvariant.DispatchKeeps` | apps/backend/src/signing/signer-pool.ts:107-122 | dispatching, to a live or an already retired slot, keeps the invariant |
| `SignerPoolInvariant.TimeoutKeeps` | apps/backend/src/signing/signer-pool.ts:114-120 | a timer that fires before or after settlement keeps the invariant |
| `SignerPoolInvariant.FinishKeeps` | apps/backend/src/signing/signer-pool.ts:123-126 | the `finally` block gives back a live slot once and a dead one never |
| `SignerPoolInvariant.ReloadKeeps` | apps/backend/src/signing/signer-pool.ts:89-96 | adopting new keys keeps the invariant, sign messages already posted included |
| `SignerPoolInvariant.PostAllAt` | apps/backend/src/signing/signer-pool.ts:93-95 | a key update reaches each live listed worker exactly once and no other |
| `SignerPoolInvariant.InboxAfterTurn` | apps/backend/src/signing/blind-sign.worker.ts:38-46 | handling one message preserves, for every later sign message, the keys it will be signed under |
| `SignerPoolInvariant.InboxAfterPost` | apps/backend/src/signing/signer-pool.ts:93-121 | appending a key update or a fresh sign message disturbs no message already queued |
| `SignerPoolInvariant.HeadReply` | apps/backend/src/signing/blind-sign.worker.ts:44-58 | the reply a worker computes is what the keyring loaded at dispatch makes of the blank |
| `SignerPoolObject.BlindSignWorker.OnMessage` | apps/backend/src/signing/blind-sign.worker.ts:38-63 | a key message replaces all keys and is not answered; a sign message is answered with BlindSign under the key held for its epoch, or with the missing-key error exactly if there is none, and keeps the keys |
| `SignerPoolObject.SignerPool.AcquireSlotFor` | apps/backend/src/signing/signer-pool.ts:206-209 | takes the most recently idle slot, or queues at the end |
| `SignerPoolObject.SignerPool.ReleaseSlot` | apps/backend/src/signing/signer-pool.ts:211-215 | hands the slot to the first waiter, or appends it to the idle list if nobody waits |
| `SignerPoolObject.SignerPool.SpawnWorker` | apps/backend/src/signing/signer-pool.ts:158-173 | makes exactly the spawn step, with the keys loaded now |
| `SignerPoolObject.SignerPool.SpawnAll` | apps/backend/src/signing/signer-pool.ts:153-156 | the loop spawns `signingWorkers` workers in turn |
| `SignerPoolObject.SignerPool.BeginSign` | apps/backend/src/signing/signer-pool.ts:103-106 | registers the call and starts the workers exactly once |
| `SignerPoolObject.SignerPool.DispatchSign` | apps/backend/src/signing/signer-pool.ts:107-122 | makes the request pending under the next id and appends its epoch and blank to the worker's inbox; a dead worker's port drops the message |
| `SignerPoolObject.SignerPool.SettleReply` | apps/backend/src/signing/signer-pool.ts:175-181 | makes exactly the settle step |
| `SignerPoolObject.SignerPool.RejectPending` | apps/backend/src/signing/signer-pool.ts:193-197 | the loop, in whatever order it meets them, rejects all and only the slot's entries |
| `SignerPoolObject.SignerPool.RetireSlot` | apps/backend/src/signing/signer-pool.ts:184-204 | makes exactly the retire step; a dead slot is left alone |
| `SignerPoolObject.SignerPool.OnTimeout` | apps/backend/src/signing/signer-pool.ts:114-120 | makes exactly the timeout step |
| `SignerPoolObject.SignerPool.FinishSign` | apps/backend/src/signing/signer-pool.ts:123-126 | makes exactly the finish step and returns the outcome the request was settled with |
| `SignerPoolObject.SignerPool.Adopt` | apps/backend/src/signing/signer-pool.ts:89-96 | the loop posts the new keys to the live workers of all slots, in place |
| `SignerPoolObject.SignerPool.InlineSign` | apps/backend/src/signing/signer-pool.ts:133-140 | signs under the inline key of the epoch, or reports the missing key exactly if there is none |
| `EndToEnd.KeyringsAgreeOnKeys` | apps/backend/src/keys/keys.service.ts:89-94 | whichever keyring of a rotation history a signer holds, an epoch's key is the one of the rotation that made it, and its id holds no NUL |
| `EndToEnd.SignatureDependsOnEpochAndBlank` | apps/backend/src/issuance/issuance.service.ts:108-110 | over all rotations and all pool runs a returned signature is BlindSign of the blank under the one key its epoch is bound to |
| `EndToEnd.ReplicasAgree` | apps/backend/src/issuance/issuance.service.ts:108-110 | two pools with different reload, timeout and replacement histories return the same signature for one epoch and blank |
| `EndToEnd.NewsIsFromHistory` | apps/backend/src/keys/keys.service.ts:134-140 | if the file shows only keyrings of the history, or content that is refused, listeners hear only the material of such keyrings |
| `EndToEnd.PoolsMakeTheBundle` | apps/backend/src/issuance/issuance.service.ts:158-165 | a bundle whose blanks were signed by any replicas' pools is the one that issuance assumes |
| `EndToEnd.ServedRunIsRun` | apps/backend/src/issuance/issuance.service.ts:66-81 | issuance over replicas, each with its own polls, keyring, pool and reloads, is a run of the issuance protocol, and none of its orders passes for another |
| `EndToEnd.RetriesAreByteIdentical` | apps/backend/src/issuance/issuance.service.ts:99-110 | over all replicas and rotations, all answers under one reference and key are equal and backed by one commit |
| `EndToEnd.CommitsAreInsideTheirDeadline` | apps/backend/src/issuance/issuance.service.ts:72-75 | every commit was checked, under a keyring its replica held, at an instant between the epoch's start and its deadline by that keyring |
| `IssuanceTheorems.EveryDeliveryIsCoveredOnce` | apps/backend/src/issuance/issuance.service.ts:61-156 | in every interleaving in which no accepted order passes for another, each delivered response is covered by exactly one commit, with its reference, epoch, blanks and response, and that commit has one ledger row |
| `IssuanceTheorems.EveryCommitWasChecked` | apps/backend/src/issuance/issuance.service.ts:70-75 | every commit was preceded by a check of its own request that found the body well formed and the epoch inside its window, by the replica's keyring and clock |
| `IssuanceTheorems.SafeOrdersDoNotCollide` | apps/backend/src/issuance/issuance.service.ts:169-173 | no order passes for another if any two have one size, or the one with fewer blanks names an epoch without NUL |
| `IssuanceRuns.CollidingRetryIsUncounted` | apps/backend/src/issuance/issuance.service.ts:99-110 | whenever an accepted order passes for another one that can be stored, there is a run with two deliveries, one commit and one ledger row, nothing counted for its epoch, and no commit that backs its delivery |
| `IssuanceRuns.AnyEpochPasses` | apps/backend/src/keys/keyring.ts:104-127 | any non-empty epoch id, NULs included, passes the checks of requests and keyrings |
| `IssuanceTheorems.KeysCommitOnce` | apps/backend/src/issuance/issuance.service.ts:128-137 | a reference and non-empty key commit at most once, and so does a request |
| `IssuanceTheorems.ReplaysEqualTheOriginal` | apps/backend/src/issuance/issuance.service.ts:99-110 | while no accepted order passes for another, all answers under one reference and key are equal, for the same epoch and the same blanks in the same order |
| `IssuanceTheorems.ReplayChangesNoRow` | apps/backend/src/issuance/issuance.service.ts:129-137 | a request whose key is claimed changes neither ledger nor counters nor schedule |
| `IssuanceTheorems.DripsAreSpaced` | apps/backend/src/entitlements/entitlements.service.ts:123-143 | successive drips of a row start at least its interval apart, so n span n-1 intervals; `drips_issued` is the number of commits that consumed it; the next is an interval after the last |
| `IssuanceTheorems.SpellingsShareOneRow` | apps/backend/src/entitlements/entitlements.service.ts:96-103 | however the id was spelled, a pickup's commit draws on the one row of its canonical form |
| `IssuanceRuns.EarlyRetryNeedsTheSameSpelling` | apps/backend/src/entitlements/entitlements.service.ts:66-78 | in any state, an early pickup is let through if and only if something was committed under its key and the very spelling of the id it presents |
| `IssuanceRuns.RetryGetsItsCredentialsBack` | apps/backend/src/entitlements/entitlements.service.ts:68-86 | in any state, a pickup that repeats the reference, key, epoch and blanks of a committed one, within its budget and under a usable epoch, can run through to that commit's own response, due or not, changing no row |
| `IssuanceRetries.RetryIsAnsweredUnlessRefused` | apps/backend/src/issuance/issuance.service.ts:61-111 | in every interleaving a request with a commit's reference and key never commits; once ended it was answered iff none of its steps refused it for its budget, body, epoch window, a different order or a breakdown; the answer is that commit's response |
| `IssuanceRetries.RetryStep` | apps/backend/src/issuance/issuance.service.ts:83-111 | any step of anybody leaves the claim standing and moves the retry on, failing it exactly when it refuses it |
| `IssuanceRuns.ExpiredRetryIsRefused` | apps/backend/src/issuance/issuance.service.ts:72-75 | a run in which the identical retry is refused because its epoch's window has closed: the drip is spent and nothing was delivered |
| `IssuanceRuns.LimitedRetryIsRefused` | apps/backend/src/issuance/issuance.service.ts:66-68 | a run in which the identical retry is refused for its budget |
| `IssuanceRuns.RespelledRetryIsRefused` | apps/backend/src/entitlements/entitlements.service.ts:61-78 | for any two spellings of one id there is a run in which the first pickup commits and the early retry under the same key, respelled, is refused as not due |
| `IssuanceRuns.SpellingsExist` | apps/backend/src/entitlements/entitlements.service.ts:96 | gives two accepted spellings of one id |
| `IssuanceTheorems.OneEntitlementPerReceipt` | apps/backend/src/entitlements/entitlements.service.ts:45-51 | no run gives one receipt two entitlement rows |
| `IssuanceTheorems.CountersAreExact` | apps/backend/src/accounting/epoch-counters.service.ts:17-40 | every epoch with a commit has a row; its bundles are the epoch's commits; signatures minus bundles times the recorded size is the commits' drift plus what was injected; at a constant size the drift is zero |
| `IssuanceTheorems.SizeIsTheFirstCounted` | apps/backend/src/accounting/epoch-counters.service.ts:17-40 | the recorded bundle size is that of the first step that counted anything for the epoch, and no later step changes it or removes the row |
| `IssuanceTheorems.DriftIsTheDifference` | apps/backend/src/issuance/issuance.service.ts:145-152 | the drift summed commit by commit equals the difference of the two totals |
| `IssuanceProgress.AnythingMayHappen` | apps/backend/src/issuance/issuance.service.ts:61-111 | the runs rule nothing out: signer, database and process may fail whenever they are at work, and requests come at any time |
| `IssuanceInvariant.RunKeeps` | apps/backend/src/issuance/issuance.service.ts:61-156 | the issuance invariant (ledger, claims, requests, deliveries, counters, drips, receipts) holds in every state of every run |
| `IssuanceInvariant.StepIssuance` | apps/backend/src/issuance/issuance.service.ts:61-156 | every step keeps ledger, claims, requests and deliveries in agreement with the commits |
| `IssuanceInvariant.StepAccounts` | apps/backend/src/issuance/issuance.service.ts:128-155 | every step keeps counters and schedules in agreement with the commits |
| `IssuanceInvariant.ReplayKeeps` | apps/backend/src/issuance/issuance.service.ts:99-110 | an answered replay has the fingerprint, reference and key of the commit that claimed the key |
| `IssuanceServices.Database.CountBundlePaid` | apps/backend/src/accounting/epoch-counters.service.ts:17-25 | inserts a row with one bundle, or adds one and keeps the recorded size |
| `IssuanceServices.Database.CountSignaturesIssued` | apps/backend/src/accounting/epoch-counters.service.ts:27-40 | inserts a row with these signatures, or adds them and keeps the recorded size |
| `IssuanceServices.Database.AdvanceDrip` | apps/backend/src/entitlements/entitlements.service.ts:123-143 | claims the drip exactly when it is due at the transaction's timestamp, and otherwise changes no row |
| `IssuanceServices.Database.RecordIssuance` | apps/backend/src/issuance/issuance.service.ts:122-156 | commits exactly when its texts can be stored, its key, if any, is unclaimed and there is nothing to consume or a due drip, and says when it ends otherwise; a commit writes one claim for a key, one ledger row, one bundle and the signatures counted, and the advanced drip; anything else writes nothing |
| `IssuanceServices.Database.Issue` | apps/backend/src/issuance/issuance.service.ts:83-111 | says for every key, absent and empty included, when the response is returned, when it is a conflict, not due or a database error |
| `IssuanceProgress.AuthorizedRequestIsServed` | apps/backend/src/issuance/issuance.service.ts:61-92 | from any state an authorized request within budget and with a good check, whose texts can be stored, whose key, if any, is unclaimed and whose drip, if any, is due, can run to its delivery with exactly one commit and ledger row more |
| `IssuanceProgress.KeylessPurchaseIsServed` | apps/backend/src/issuance/issuance.service.ts:83-87 | so can, from any state, a purchase without an idempotency key |
| `IssuanceProgress.PickupIsAuthorizedIff` | apps/backend/src/entitlements/entitlements.service.ts:61-112 | a pickup is authorized iff its id is one of a registered row, in any case, and its drip is due or something was committed under its key and spelling; otherwise it is unknown or not due |
| `IssuanceProgress.PickupWithoutIdIsUnknown` | apps/backend/src/entitlements/entitlements.service.ts:96-98 | a pickup without an id is an unknown entitlement and changes no row |
| `IssuanceProgress.CallIsAdmittedIff` | apps/backend/src/issuance/issuance.service.ts:66-68 | a call is let through iff all calls of its reference in the window ending now number at most the maximum, and is counted either way |
| `IssuanceProgress.PassesIff` | apps/backend/src/issuance/issuance.service.ts:70-75 | a body passes iff it is well formed and some entry of the keyring, current or not, has its epoch's id and an open window; it becomes the order unchanged |
| `IssuanceProgress.WrongEpochIff` | apps/backend/src/issuance/issuance.service.ts:72-75 | a well-formed body is refused for its epoch iff no entry of that id has an open window |
| `IssuanceProgress.UuidPattern` | apps/backend/src/entitlements/entitlements.service.ts:16 | an id is accepted iff it is five groups of 8, 4, 4, 4 and 12 hex digits in any case, with dashes between |
| `IssuanceProgress.OnlyCaseIsIgnored` | apps/backend/src/entitlements/entitlements.service.ts:96-103 | two ids name the same row iff they differ in the case of hex letters only |
| `IssuanceProgress.BundleIsBlindSigned` | apps/backend/src/issuance/issuance.service.ts:158-165 | the bundle holds BlindSign of each blank, in order, under the key of the order's epoch |
| `IssuanceServices.Database.RegisterReceipt` | apps/backend/src/entitlements/entitlements.service.ts:37-59 | a known receipt keeps its row and schedule; a new one gets a row whose first drip is due at once; the id returned is the receipt's |
| `IssuanceServices.Database.Schedule` | apps/backend/src/entitlements/entitlements.service.ts:90-112 | succeeds exactly for a UUID of a known row, in any letter case, and reads dueness from that row |
| `IssuanceServices.Database.IsReplay` | apps/backend/src/issuance/issuance.service.ts:114-116 | true exactly when the reference has issued under the key |
| `IssuanceServices.Database.AdmitPickup` | apps/backend/src/entitlements/entitlements.service.ts:61-87 | admits exactly a due drip or a replay, and yields the grant for the id as presented |
| `ReconciliationService.DeltasAreExact` | apps/backend/src/accounting/reconciliation.service.ts:36-46 | with commits allowed between the two reads, the ledger delta is exactly the bundles committed in between, and the signature delta is drift plus injected signatures |
| `ReconciliationService.AlarmsAreExact` | apps/backend/src/accounting/reconciliation.service.ts:48-59 | at constant k overissuance is raised iff signatures were injected, with their number as delta; underissuance never; a ledger mismatch iff something committed between the reads |
| `ReconciliationService.LedgerCountsCommits` | apps/backend/src/accounting/reconciliation.service.ts:99-104 | the ledger's per-epoch sum is the number of that epoch's commits |
| `ReconciliationService.Reconciliation.Examine` | apps/backend/src/accounting/reconciliation.service.ts:41-51 | computes the finding of one counter row, alarms in the code's order |
| `ReconciliationService.Reconciliation.RaiseAll` | apps/backend/src/accounting/reconciliation.service.ts:53-59 | stores one alarm per divergence, in order, with the expected and actual values of its kind and their difference |
| `ReconciliationService.Reconciliation.Reconcile` | apps/backend/src/accounting/reconciliation.service.ts:36-74 | one finding per counter row in order, and the alarms of each row stored |
| `ReconciliationService.RowAlarmsAreExact` | apps/backend/src/accounting/reconciliation.service.ts:41-59 | for one row, from counters and ledger alone: each of the three alarms is raised iff its numbers diverge, with both numbers and their difference |
| `ReconciliationService.StoresExactly` | apps/backend/src/accounting/reconciliation.service.ts:36-74 | over all rows the alarms stored are exactly those called for, each once |
| `ReconciliationService.LedgerBundlesAdd` | apps/backend/src/accounting/reconciliation.service.ts:99-104 | the ledger's sum for an epoch adds the bundle counts of its rows |
| `RotationRuns.EveryRingIsGood` | scripts/rotate-epoch.ts:60-113 | over every run of rotations from nothing, each keyring passes all structural checks, the current id is the number of the rotation, and every entry carries the key of the rotation that made it |
| `RotationRuns.RunsExist` | scripts/rotate-epoch.ts:60-113 | no rotation of such a history is refused |
| `RotationRuns.IdIsBoundToOneKey` | scripts/rotate-epoch.ts:69-100 | across a history of up to 2^53 + 1 rotations, on any clock, an epoch id has one private and one public key |
| `RotationRuns.EveryEntryHasItsMaker` | scripts/rotate-epoch.ts:60-113 | on any clock, the current id is the number of the rotation and every entry carries id, start and key pair of the rotation that made it |
| `RotationRuns.LastIdIsBoundAgain` | scripts/rotate-epoch.ts:69-89 | the rotation after epoch 2^53 gives that id a new key |
| `RotationRuns.RetiredEpochsEndOnTime` | scripts/rotate-epoch.ts:91-100 | under constant grace a retired epoch ends at the smaller of its own end and its retirement plus grace, however many rotations follow, and is kept exactly until a rotation at or after that instant |
| `Rotation.RotateKeyring` | scripts/rotate-epoch.ts:60-113 | the loop that pushes retained epochs builds the keyring of the specification, errors included |
| `Rotation.RetainedExactly` | scripts/rotate-epoch.ts:93-100 | an entry is retained iff it is the cut of a prior entry that has not expired |
| `Rotation.RetainedInOrder` | scripts/rotate-epoch.ts:93-100 | epochs are retained one by one, in order |
| `Rotation.OneIsRetained` | scripts/rotate-epoch.ts:94-99 | one epoch is kept iff its end, or that of the grace window if earlier, lies ahead, and is signed again with that end and nothing else changed |
| `Rotation.RotatedInFull` | scripts/rotate-epoch.ts:79-106 | a rotated keyring is the new epoch, signed for its window under the standard suite, followed by what is retained |
| `Rotation.PublishedVerifies` | scripts/rotate-epoch.ts:108-112 | no rotation is published unless each of its documents verifies |
| `Rotation.RetainedIds` | scripts/rotate-epoch.ts:93-100 | retaining introduces no id and no duplicate |
| `Rotation.RotatedVerifies` | scripts/rotate-epoch.ts:108-111 | every entry of a rotated keyring verifies under the root key, re-signed ones included |
| `Rotation.StaleReaderIsHarmless` | apps/backend/src/keys/keyring.ts:136-143 | during the grace window an old epoch is usable under the old keyring iff under the new one, with the same key pair; afterwards never under the new one; rotation opens no window; an old epoch named like the new one gives way to it |
| `Rotation.NamesakeWasOver` | scripts/rotate-epoch.ts:94-100 | if the result parses and grace is positive, an old epoch named like the new one was already over |
| `Rotation.FreshEpochIsUsable` | scripts/rotate-epoch.ts:79-89 | the new epoch is usable exactly from the rotation for the epoch's length, under the generated key |
| `Rotation.ResultParsesIff` | scripts/rotate-epoch.ts:102-112 | the rotation of a good keyring parses iff the epoch length is positive, the new id does not survive from before, and no surviving epoch would end before it began |
| `KeyringModel.ParsesExactlyGoodStructure` | apps/backend/src/keys/keyring.ts:72-127 | parsing accepts exactly the well-structured keyrings with distinct ids, and returns them unchanged |
| `KeyringModel.FindIsMembership` | apps/backend/src/keys/keyring.ts:136-149 | with distinct ids the first match is the only entry of that id |
| `KeyringModel.UsableIff` | apps/backend/src/keys/keyring.ts:136-143 | an epoch is usable iff some entry, the current one or not, has its id and a window that holds the instant |
| `KeyringModel.ParsedEntriesAreSound` | apps/backend/src/keys/keyring.ts:104-127 | every entry of a parsed keyring has an id, keys, the one suite and a proper window |
| `KeyringModel.CurrentEpochExists` | apps/backend/src/keys/keyring.ts:145-149 | a parsed keyring has an entry for its current epoch |
| `KeysServices.SignersHoldTheKeyringsKeys` | apps/backend/src/keys/keys.service.ts:89-94 | signers hold a key for exactly the keyring's epochs, and it is the key of the entry that the usability check finds |
| `KeysServices.KeysService.Reload` | apps/backend/src/keys/keys.service.ts:106-142 | a poll replaces the keyring and calls the listeners with its keys exactly when its content is new and good; otherwise nothing changes, and only an initial failure is an error |
| `KeysServices.LoadsExactlyGoodKeyrings` | apps/backend/src/keys/keys.service.ts:121-132 | a text is accepted iff its JSON is a well-structured keyring each of whose documents verifies under the root key it names |
| `KeysServices.HeldKeyringIsGood` | apps/backend/src/keys/keys.service.ts:106-142 | whatever keyring is held after any polls is well structured, all its entries verify, and it was read from the file |
| `KeysServices.MaterialIsTheKeyrings` | apps/backend/src/keys/keys.service.ts:89-94 | signers are told id and private key of every entry, in keyring order |
| `KeysServices.KeysService.Usable` | apps/backend/src/keys/keys.service.ts:70-72 | an entry is returned only inside its window, and nothing only if no entry of that id has an open window |
| `VaultRotation.VersionsFormAChain` | scripts/rotate-epoch.ts:131-151 | however rotators and other writers race, every successful rotation is the next keyring of the very version it replaced |
| `VaultRotation.RotationTouchesOneField` | scripts/rotate-epoch.ts:145-149 | a rotation leaves every other field of the secret as it was |
| `VaultRotation.StaleWriteIsRefused` | scripts/vault-kv.ts:60-71 | a rotator that lost the race writes nothing |
| `VaultRotation.ReadTakesTheLatest` | scripts/vault-kv.ts:38-53 | a read takes the latest version with its number |
| `VaultRotation.CurrentWriteSucceeds` | scripts/vault-kv.ts:60-71 | a rotator that read the current version writes the next one |
| `VaultRotation.RotatesIff` | scripts/rotate-epoch.ts:131-151 | a secret can be rotated iff its field is empty or holds a well-structured keyring with a numeric current id; the first rotation makes epoch "0" |
| `VaultRotation.RotationAdvances` | scripts/rotate-epoch.ts:131-151 | a successful rotation advances the stored epoch by one and loses no surviving epoch |
| `VaultRotation.EpochCountsRotations` | scripts/rotate-epoch.ts:131-151 | m successful rotations between two versions advance the epoch by exactly m |
| `VaultHistory.RacingRotationsAreARun` | scripts/rotate-epoch.ts:131-151 | from a secret without a keyring, the keyrings that racing rotators succeed in writing are one run of their rotations |
| `VaultHistory.RacesBindOneKey` | scripts/rotate-epoch.ts:122-151 | entries of one epoch id in any two versions of the secret have one key pair, however rotators raced |
| `VaultRotation.Vault.ReadSecret` | scripts/vault-kv.ts:38-53 | returns the document together with its version |
| `VaultRotation.Vault.WriteSecret` | scripts/vault-kv.ts:60-71 | replaces the whole document iff the version still matches |
| `VaultRotation.Vault.FinishRotation` | scripts/rotate-epoch.ts:134-150 | succeeds iff the keyring rotates and the version has not moved; then the document is the one read with only the keyring field changed; otherwise nothing changes |
| `EpochIds.IdsAdvanceThenStick` | scripts/rotate-epoch.ts:69-72 | for every id: below 2^53, stated as a power, the next is one more; from there on the next one is its own next |
| `EpochIds.IdsSkipBeyondLimit` | scripts/rotate-epoch.ts:69 | two past 2^53 the next id is two more |
| `EpochIds.LimitIsExact` | scripts/rotate-epoch.ts:69 | the limit is 2^53 |
| `EpochIds.DigitsAreRead` | scripts/rotate-epoch.ts:69-72 | digits are read as the number they spell, leading zeros included; anything else is no number |
| `EpochIds.IdsAreDecimal` | scripts/rotate-epoch.ts:69-72 | ids are decimal numerals, the first is "0", and an id that is no number has no next |
| `EpochIds.IdsAreInjective` | scripts/rotate-epoch.ts:69 | different numbers have different ids |
| `RsaRaw.ReturnsExactlyTheSignature` | apps/backend/src/signing/rsa-raw.ts:95-132 | whatever the private operation yields, bytes are returned iff they are m^d mod n at full length for a full-length message below n |
| `RsaRaw.SignatureIsUnique` | apps/backend/src/signing/rsa-raw.ts:118-126 | the only residue whose public power is the message is m^d mod n |
| `RsaRaw.SignatureVerifies` | apps/backend/src/signing/rsa-raw.ts:118-126 | the mathematical signature passes the check |
| `RsaRaw.ReturnsAreEqual` | apps/backend/src/signing/rsa-raw.ts:95-132 | two returns for one message are equal bytes |
| `RsaRaw.OutOfRangeIsRefused` | apps/backend/src/signing/rsa-raw.ts:99-105 | a message not below the modulus is refused in the same words whatever the platform does |
| `RsaRaw.BytesOfInteger` | apps/backend/src/signing/rsa-raw.ts:79-81 | bytes to integer and back at the same length is the identity |
| `RsaRaw.FirstByteCountsMost` | apps/backend/src/signing/rsa-raw.ts:79-81 | bytes are read big-endian |
| `RsaRaw.FaultsAreRefused` | apps/backend/src/signing/rsa-raw.ts:107-126 | any other result is a signing failure, one that is no residue fails the public operation, and platform errors pass on, the range error in the words of the check |
| `Base64.AcceptsExactlyCanonicalEncodings` | apps/backend/src/errors/base64.ts:3-8 | a string is accepted with result b iff b is not empty and the string is its canonical encoding |
| `Base64.BareRoundTrip` | apps/backend/src/errors/base64.ts:6-7 | decoding an encoding gives the bytes back |
| `Base64.EncodingIsInjective` | apps/backend/src/errors/base64.ts:6-7 | two byte strings never share an encoding |
| `Base64.AcceptedCharacters` | apps/backend/src/errors/base64.ts:5 | an accepted string holds only alphabet characters and padding |
| `Base64.AlphabetIsTheStandards` | apps/backend/src/errors/base64.ts:5-7 | the alphabet of RFC 4648, character by character |
| `Base64.GroupsAreBigEndian` | apps/backend/src/errors/base64.ts:6-7 | four characters spell three bytes, most significant bits first |
| `Base64.EncodingGoesGroupByGroup` | apps/backend/src/errors/base64.ts:6-7 | groups of three bytes are encoded one after another, and padding fills the last group |
| `Base64.LeftoverBitsAreZero` | apps/backend/src/errors/base64.ts:6-7 | in a last group of one or two bytes the bits left over are zero |
| `Base64.TestVectors` | apps/backend/src/errors/base64.ts:6-7 | the test vectors of section 10 of RFC 4648, up to three bytes |
| `BundleRequestValidation.BlankIsCanonical` | apps/backend/src/issuance/bundle-request.ts:35-43 | a blank passes iff it is the canonical encoding of exactly `blankSizeBytes` bytes |
| `BundleRequestValidation.AcceptedRequestIsWellFormed` | apps/backend/src/issuance/bundle-request.ts:17-46 | an accepted request has a non-empty epoch and exactly k such blanks, none holding a NUL |
| `BundleRequestValidation.AcceptsExactlyWellFormedRequests` | apps/backend/src/issuance/bundle-request.ts:17-46 | any JSON body, other fields allowed, is accepted iff it names a non-empty epoch and exactly k well-formed blanks, which come out unchanged |
| `BundleRequestValidation.SizeIsReportedFirst` | apps/backend/src/issuance/bundle-request.ts:23-34 | given an epoch and an array of blanks, the size error is reported iff the count is wrong, however malformed the blanks are |
| `BundleRequestValidation.RefusalsSayWhy` | apps/backend/src/issuance/bundle-request.ts:17-43 | which code a body is refused with, for every body |
| `Fingerprint.StreamInput` | apps/backend/src/issuance/issuance.service.ts:169-173 | the successive updates feed the hash exactly the NUL-separated input |
| `Fingerprint.InputsEqualIff` | apps/backend/src/issuance/issuance.service.ts:169-173 | for one reference two inputs are equal iff the requests are, or one epoch has swallowed the first blanks of the other request |
| `Fingerprint.InputNamesItsReference` | apps/backend/src/issuance/issuance.service.ts:169-173 | inputs of different references are different |
| `Fingerprint.InputIsSeparatedByNul` | apps/backend/src/issuance/issuance.service.ts:169-173 | the input is reference, epoch and blanks separated by NUL |
| `Fingerprint.HashInputIsInjective` | apps/backend/src/issuance/issuance.service.ts:169-173 | equal inputs mean equal epoch and equal blanks in order, for one bundle size always, for two when the epoch with fewer blanks holds no NUL |
| `Fingerprint.EpochWithNulCollides` | apps/backend/src/issuance/issuance.service.ts:169-173 | two requests that collide |
| `Decimal.EqualsMeansSameNumber` | apps/backend/src/payment/decimal.ts:7-25 | two strings compare equal iff both are well formed with at most 18 fraction digits and denote the same rational number |
| `Decimal.PatternIsExact` | apps/backend/src/payment/decimal.ts:13-15 | the pattern accepts exactly the spellings of an optional sign, digits, and optionally a point and digits |
| `Decimal.ValueOfSpelling` | apps/backend/src/payment/decimal.ts:18-25 | the parts split off a spelling are the parts it was spelled from |
| `Decimal.ScalingIsExact` | apps/backend/src/payment/decimal.ts:18-25 | the scaled integer is the denoted number times the power of ten, exactly |
| `Decimal.IsEquivalence` | apps/backend/src/payment/decimal.ts:7-11 | reflexive exactly on accepted strings, symmetric and transitive |
| `Decimal.ZerosMakeNoDifference` | apps/backend/src/payment/decimal.ts:3-11 | one more zero in front of or behind any spelling makes no difference |
| `Decimal.OnlyZeroHasNoSign` | apps/backend/src/payment/decimal.ts:18-25 | a spelling equals its negation iff all its digits are zero |
| `Decimal.DigitsAreDecimal` | apps/backend/src/payment/decimal.ts:18-25 | digits are read to base ten, most significant first |
| `Decimal.NineteenPlacesAreTooMany` | apps/backend/src/payment/decimal.ts:22 | more than 18 fraction digits equal nothing |
| `RateLimiting.AllowsIffHistoryDoes` | apps/backend/src/payment/rate-limiter.service.ts:35-54 | a request is allowed iff all requests for the reference in the window ending now, blocked ones included, number at most the maximum |
| `RateLimiting.StoredIsRecentHistory` | apps/backend/src/payment/rate-limiter.service.ts:41-47 | trimming and key expiry together cut off exactly what has left the window |
| `RateLimiting.EveryWindowHoldsAtMostMax` | apps/backend/src/payment/rate-limiter.service.ts:11-18 | no interval of the window's length, wherever it starts, holds more than the maximum of allowed requests |
| `RateLimiting.RateLimiter.Allow` | apps/backend/src/payment/rate-limiter.service.ts:35-54 | counts the request whether blocked or not, decides by the reference's full history, and touches no other reference |
| `RateLimiting.RateLimiter.Touched` | apps/backend/src/payment/rate-limiter.service.ts:41-47 | performs the transaction's commands in order |
| `RateLimiting.TrimIsOneByOne` | apps/backend/src/payment/rate-limiter.service.ts:43 | scores from zero up to the cutoff go, the others stay in order |
| `EntitlementBudget.OneBudgetIffOneSpelling` | apps/backend/src/payment/rate-limiter.service.ts:35-54 | calls under all spellings of one id stay within one maximum per window iff there is one spelling; with n they can reach n times the maximum |
| `EntitlementBudget.BudgetPerSpelling` | apps/backend/src/payment/rate-limiter.service.ts:35-54 | they never exceed one maximum for each spelling |
| `EntitlementBudget.SpellingsAreCountedApart` | apps/backend/src/issuance/issuance.service.ts:66 | a call under one spelling is not counted for another |
| `RateLimiting.FewCallsAreAllowed` | apps/backend/src/payment/rate-limiter.service.ts:49-53 | a reference that has called less often than the maximum in all is let through, on any clock |

## Left out

- Claim checking, receipt validation, rejection counters, the health endpoint, configuration, modules, controllers, entities, migrations, logging, PEM wrapping: wiring or easy list checks.
- The buyer harness, the command lines, the fake proxy and issuer, conformance reports, vector generation, the Go cross-verifier.
- Internals of SHA-256, Ed25519, PSS, blindrsa-ts, OpenSSL and WebCrypto: function parameters with stated laws. UTF-8 encoding of the hash input is taken as injective, which it is not for strings that hold lone surrogates.
- Postgres, Redis and Vault engines: only atomic transactions, unique keys, text that cannot hold a NUL, the conditional update with the transaction's own timestamp, MULTI and compare-and-set are modelled. Counters, sums and ids in database columns are unbounded.
- Claim checking and what happens before a grant is in hand are left out of the issuance machine; a failure of the signer, of the database or of the process is a step that may happen whenever it can.
- Two reads of one method that the program makes separately (the claim that fails and the look-up of its fingerprint) are separate steps of the issuance machine; the method `Database.Issue` makes them in a row.
- How the keyring file comes to show only keyrings of the rotation history, or refused content, is taken as given (`EndToEnd.FileShows`); rendering it from Vault is not modelled. The inline signing mode is modelled on its own, not inside `EndToEnd.ServedRun`.
- Objects behind slots and promises: slots and requests are numbers, so object identity and aliasing are not modelled. The text of error messages is shortened.
- The pool during shutdown: its safety is covered, but no progress is claimed, because waiters are not woken then.
- Overlapping calls of `reload` and concurrent file-mode rotations: the code has no ordering guard there, and none is claimed.
- JSON decoding and ISO-8601 instants: keyrings are typed records and instants are integers in milliseconds. Ids that are numerals only to JavaScript (hexadecimal, exponents, blanks, signs, fractions) count as not a number, and ids of 10^21 and above are not printed in exponent form.
- The limiter's clock is taken as non-decreasing in execution order and in step with the store's expiry.
- Other writers of the Vault secret are taken to leave the keyring field alone; a keyring written by hand is not modelled.
- Uniqueness of a payment reference: a claim may be presented again, so none is stated.
