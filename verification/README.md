# Verified models of the backend's stateful protocols

The backend is a multi-tenant SaaS server: Redis holds counters, flags, caches and token
hashes with expiries, Postgres holds the rows, Stripe holds the money, and BullMQ retries
jobs. This project models the parts of it in which several of these must stay in step, and
proves what the code is relied upon for:

- **Usage metering** (`Usage`, `UsageRace`, `UsageUnlimited`, `UsageRefusal`, `UsageReset`, `UsageSync`,
  `PlanCache`, over `Cache`, `RedisServer`, `Keys` and `Calendar`): how many calls a plan limit really admits,
  one at a time and under every interleaving, and exactly until when; when a refusal is
  deserved; what the monthly wipe
  deletes while other clients keep writing; what the sync copies; how old a cached limit can be.
- **API keys** (`ApiKeys`, `ApiKeyRace`): the lookup cache is invisible to callers one at a
  time; under interleaving and crashes, which stale entries are possible and when a
  revocation is final; the last-used throttle.
- **Billing** (`Billing`, `BillingTenants`, `TrialExpiry`, `Lifecycle`, `RowSaves`, over
  `Organizations`): the retried subscription jobs of all organizations make at most one
  subscription each; when trials are suspended and cancelled; what no operation on an
  organization ever undoes, and exactly when an overlapping whole-row save does.
- **Webhook delivery** (`Webhooks`): one row per subscribed endpoint, the status a row
  ends in, and what survives database failures.
- **Members and sessions** (`Members`, `Membership`, `Acceptances`, `Invitations`, `Sessions`,
  `RefreshRace`): what one request may send, item by item concurrently; invitations are accepted
  once, whatever the cache holds, and exactly when not, and leave the user they invited; organizations
  keep an owner; one refresh token is good at a time, and exactly when one token yields two pairs;
  exactly which access tokens are accepted: none that was logged out, none of a removed user.

Services that update state in place are classes whose methods are proved equal to functions
on values; the theorems are about those functions. Interleaved protocols are machines in the
sense of `Runs`: guarded steps, and a run is any legal sequence of them. Instants are
milliseconds; an entry with an expiry is readable strictly before it. The clock, random
tokens, new ids, SCAN replies, the answers of remote servers and the failures of calls are
inputs, so each theorem holds for all of them.

What the proofs turned up, kept as the code has it:

- A limit of 0, or one already reached, still admits one call, because the flag is only raised
  after a count; and with C requests in flight, C - 1 more than that get in
  (`UsageRace.AdmissionBoundAttained`).
- Every month the limit fails from just after 23:59:58.000 of its last day. A flag raised
  earlier lapses by 23:59:59.000 (`Usage.FlagLapses`), so calls are served over the limit
  (`Usage.OverrunAfterWindow`, `UsageRace.BoundBreaksAfterWindow`). A flag raised after
  23:59:58.000 and up to 23:59:59.000 gets TTL 0, which `set` stores without expiry
  and keeps until some client touches it, as the monthly reset does
  (`Usage.FlagStaysUntilTouched`). After that the TTL is -1, which Redis refuses: requests
  that do all their accounting in that second are never flagged, all served and counted
  (`Usage.LastSecondUncapped`). Up to 23:59:58.000 the limit holds, so the bound is exact
  (`Usage.WindowIsExact`, `UsageRace.BoundHoldsIff`).
- The period and the flag's TTL are two readings of the clock. A request counted before
  midnight that comes to setting the flag after it flags the organization for the whole new
  month, with nothing counted there (`UsageRefusal.UndeservedRefusal`). Inside one month no
  refusal is undeserved (`UsageRefusal.AllDeservedIff`).
- A plan-limit TTL of 0 makes a cached plan permanent (`PlanCache.AtMostTtlOldIff`).
- The items of one invitation request look for a pending invitation before any of them saves
  one. A request that names an address twice can leave two pending invitations for it
  (`Invitations.OneRequestTwoInvitations`); a request whose items are distinct cannot
  (`Invitations.RequestKeepsOnePendingIff`).
- If the cache entry of an accepted invitation cannot be dropped, the token can be accepted
  again after its user was removed (`Invitations.AcceptedTwice`, `Membership.ClosesAgainIff`).
- The subscription job never looks at whether the organization is active: one that was
  cancelled meanwhile gets a subscription all the same (`Lifecycle.InactiveBilledIff`,
  `Lifecycle.CancelledThenBilled`).
- Deleting the cache entry of a revoked key is final exactly when no request still holds the
  row it read before the revocation (`ApiKeyRace.DeleteIsFinalIff`, with a run that grants a
  revoked key, `ApiKeyRace.RevokedKeyGranted`); and if the cache TTL is configured as 0, a
  crashed remover leaves the key valid for ever (`ApiKeyRace.TakesHoldIff`).
- A subscription created during the trial, but cut off before its id was stored, can never be
  recovered by a retry after the trial: the idempotency key is the same while `trial_end` is
  not (`Billing.RetryCompletesIff`, `Billing.StrandedForever`, `Billing.OneCutStrands`).
- A declined subscription request is answered from the idempotency key ever after, so no retry
  gets a subscription (`Billing.DeclinedForever`, `Billing.OneDeclineSticks`).
- `updatePlan` and `updateName` save the whole row they read. A cancellation in between is
  undone (`RowSaves.SaveUndoesDeactivationIff`, `RowSaves.SaveCanReactivate`), and a renaming
  erases a subscription id stored in between (`RowSaves.SaveErasesSubscriptionIff`,
  `RowSaves.RenameCanEraseSubscription`).
- A delivered webhook can be recorded as FAILED or PENDING when the database fails inside
  the `try` (`Webhooks.ReadsSuccessIff`, `Webhooks.AcceptedButFailed`).
- Refreshing within the second a token was signed does not spend it, because the new token is
  the same string (`Sessions.RotatedUnlessSameSecond`, `Sessions.SpentTokenAccepted`).
- Two refreshes that read the stored hash before either deletes it both get a pair, and the
  pair issued first is already refused (`RefreshRace.SecondPassesIff`,
  `RefreshRace.OneTokenTwoPairs`).

## Model

| member | source | states |
|---|---|---|
| Calendar.YearFrom | src/common/utils/utility.service.ts:8-8 | Every day number has exactly this year: it lies between the year's first day and the next year's |
| Calendar.LocalMonth | src/common/utils/utility.service.ts:8-9 | An instant's local day lies in the returned year and month |
| Calendar.MonthsDisjoint | src/common/utils/utility.service.ts:8-9 | No day lies in two different months, of one year or of two |
| Calendar.MonthSpan | src/common/utils/utility.service.ts:8-9 | The instants of a month are exactly those from its first midnight to the next month's |
| Calendar.EndIsLastSecond | src/common/utils/utility.service.ts:16-23 | Day 0 of the next month at 23:59:59 is the last second of the current month, December included |
| Calendar.TtlReachesLastSecond | src/common/utils/utility.service.ts:14-25 | now + s seconds <= the month's last second < now + s + 1 seconds; that second is in the month of now and one second later is not |
| Calendar.FlagStaysInItsMonth | src/common/utils/utility.service.ts:14-25 | Every instant up to a flag's expiry is in the month it was set; the TTL is at least 1 exactly up to 23:59:58.000 of the last day, then 0 up to 23:59:59.000, then -1 |
| Calendar.SameMonth | src/common/utils/utility.service.ts:14-25 | A later instant is in now's month if and only if it is before one second past the computed end |
| Calendar.PeriodOrder | src/common/utils/utility.service.ts:7-12 | formatYYMM names each month once, and for four-digit years its names sort as the dates do, in both directions |
| Keys.SplitConcat | src/jobs/schedulers/usage-sync.scheduler.ts:32-33 | split(':') cuts a key at a colon into exactly the segments of the two sides |
| Keys.SplitInjective | src/jobs/schedulers/usage-sync.scheduler.ts:32-33 | Two keys with the same segments are the same key |
| Keys.GlobOneStar | src/jobs/schedulers/usage-reset.scheduler.ts:22-22 | A pattern with one star matches exactly the strings with that prefix and that suffix around something |
| Keys.GlobTwoStars | src/jobs/schedulers/usage-reset.scheduler.ts:19-21 | A pattern pre*mid* matches exactly the strings pre + x + mid + y |
| RedisServer.SurvivorsAreRewritten | src/cache/cache.service.ts:63-76 | With other clients writing before and after every reply, a matching key readable after a deleting scan was written by one of them after a moment at which it was missing; SCAN is only trusted with keys that are there all the time |
| RedisServer.BystandersKeep | src/cache/cache.service.ts:63-76 | A key no deletion names ends as the other clients' commands alone would leave it |
| RedisServer.CountsSincePurge | src/cache/cache.service.ts:42-76 | A counter that is only counted up holds, after its last deletion, exactly the increments made since |
| Cache.CacheService.Set | src/cache/cache.service.ts:14-18 | Stores with the TTL; TTL 0 or none stores without expiry; a negative one is refused and changes nothing |
| Cache.CacheService.Get | src/cache/cache.service.ts:20-22 | Returns the value of a key that is there and unexpired, else nothing |
| Cache.CacheService.SetIfAbsent | src/cache/cache.service.ts:26-28 | Answers true exactly when no live entry existed, and only then writes |
| Cache.CacheService.Delete | src/cache/cache.service.ts:30-32 | Removes the key and nothing else |
| Cache.CacheService.Incr | src/cache/cache.service.ts:42-44 | Counts from 0 without expiry for a missing key, keeps a live key's expiry, refuses a value that is no number |
| Cache.CacheService.GetByPattern | src/cache/cache.service.ts:46-61 | Returns the batches of all replies up to cursor 0 in order, repeats included, while other clients' commands take effect |
| Cache.CacheService.DeleteByPattern | src/cache/cache.service.ts:63-76 | Deletes each batch after its reply, up to cursor 0, while other clients' commands take effect in between |
| Cache.DeletedByPattern | src/cache/cache.service.ts:63-76 | Whatever the batching and the other clients do: readable matching keys were rewritten meanwhile, and keys that do not match are as those clients leave them |
| Cache.UnwrittenIsGone | src/cache/cache.service.ts:63-76 | A matching key that no other client writes during the scan can never be read again |
| Usage.UsageKeyParts | src/modules/usage/usage.service.ts:29-29 | Splitting a counter key gives back its organization, metric and period |
| Usage.KeysDistinct | src/modules/usage/usage.service.ts:29-48 | Counter, flag and plan-limit keys of any two organizations never coincide |
| Usage.UsageService.IncrementUsage | src/modules/usage/usage.service.ts:24-33 | Increments exactly that organization's, metric's and period's counter and returns its new value |
| Usage.UsageService.IsLimitExceeded | src/modules/usage/usage.service.ts:46-51 | True exactly while a flag for the organization is live |
| Usage.UsageService.SetLimitExceeded | src/modules/usage/usage.service.ts:53-62 | Stores the flag with the given TTL, or fails unchanged on a negative one |
| Usage.UsageService.GetPlanLimit | src/modules/usage/usage.service.ts:91-116 | The cached limits if live, else the organization's plan, which is then cached; an unknown organization is an error |
| Usage.UsageTrackerInterceptor.Log | src/common/interceptors/usage-tracker.interceptor.ts:31-64 | INCR in the period of one clock reading, then the limit, then the flag, with the TTL of a later reading, if limit is not -1 and the count has reached it; each failure stops it |
| Usage.UsageTrackerInterceptor.Intercept | src/common/interceptors/usage-tracker.interceptor.ts:65-99 | An untracked route passes untouched, a flagged request is refused, a failing handler is not counted, a succeeding one is |
| Usage.MonthFacts | src/common/interceptors/usage-tracker.interceptor.ts:33-42 | At every instant of the month: its period, its end, and the sign and reach of the TTL a flag would get |
| Usage.ClearCallLogged | src/common/interceptors/usage-tracker.interceptor.ts:31-64 | One succeeding unflagged call raises the count by one and, exactly when that reaches the limit, raises the flag as far as its TTL allows |
| Usage.SequentialAdmission | src/common/interceptors/usage-tracker.interceptor.ts:31-98 | One at a time, up to 23:59:58 of the last day and with n0 counted at the start, a tracked call is let through exactly while fewer than max(limit, n0 + 1) are counted, or without a limit; failed handlers and untracked routes are never counted |
| Usage.FirstCallsServed | src/common/interceptors/usage-tracker.interceptor.ts:31-98 | From a fresh month, when every handler succeeds, exactly the first max(limit, 1) calls are served and every later one refused |
| Usage.FlagLapses | src/common/interceptors/usage-tracker.interceptor.ts:41-47 | In every month, a flag raised up to 23:59:58 lapses within the last two seconds, while its period still runs |
| Usage.FlagStaysUntilTouched | src/cache/cache.service.ts:14-18 | A flag raised with TTL 0, after 23:59:58 and up to 23:59:59, is up at every instant, in later months too, until some client writes or deletes its key |
| Usage.NoFlagInTheLastSecond | src/common/interceptors/usage-tracker.interceptor.ts:41-47 | After 23:59:59 raising the flag fails and changes nothing |
| Usage.LastSecondUncapped | src/common/interceptors/usage-tracker.interceptor.ts:31-98 | Calls that do all their accounting in that second are all let through and counted, however far the limit is exceeded; past it the caller is told of a failure |
| Usage.OverrunAfterWindow | src/common/interceptors/usage-tracker.interceptor.ts:31-98 | For every finite limit, a run up to one millisecond after 23:59:58 that lets a call too many through |
| Usage.WindowIsExact | src/common/interceptors/usage-tracker.interceptor.ts:31-98 | All runs up to an instant are as `SequentialAdmission` says if and only if the instant is not after 23:59:58 of the last day |
| UsageRace.StepKeeps | src/common/interceptors/usage-tracker.interceptor.ts:31-98 | Each awaited step of any organization's request, those of getPlanLimit included, keeps the counting invariant of every organization |
| UsageRace.AdmissionBound | src/common/interceptors/usage-tracker.interceptor.ts:31-98 | Under every interleaving with at most C requests in flight and n0 counted at the start, counted plus admitted-but-uncounted never exceeds max(limit, n0 + 1) + C - 1 |
| UsageRace.AdmissionBoundAttained | src/common/interceptors/usage-tracker.interceptor.ts:31-98 | For every finite limit, every C and every n0 some run reaches that bound, so no smaller one holds |
| UsageRace.BoundHoldsIff | src/common/interceptors/usage-tracker.interceptor.ts:31-98 | The bound holds of every run if and only if no step comes after 23:59:58 of the month's last day |
| UsageRace.BoundBreaksAfterWindow | src/common/interceptors/usage-tracker.interceptor.ts:31-98 | A run up to one millisecond later that exceeds the bound |
| UsageRace.AloneIsLogged | src/common/interceptors/usage-tracker.interceptor.ts:31-64 | A request that no other interrupts leaves exactly what the specification of logUsage leaves, at whatever two instants it counts and flags |
| UsageUnlimited.UnlimitedServed | src/common/interceptors/usage-tracker.interceptor.ts:31-98 | With a stored limit of -1 and no flag at the start, in any run of calls of any organizations at any instants, every tracked succeeding call of the organization is served, none is refused for the limit, and its flag key is never written |
| UsageUnlimited.UnlimitedNeverRefused | src/common/interceptors/usage-tracker.interceptor.ts:31-98 | The same under every interleaving of awaited steps: the flag key stays absent and no request of the organization is turned away |
| UsageRefusal.RefusedOnlyAtLimit | src/common/interceptors/usage-tracker.interceptor.ts:82-89 | Under every interleaving inside one month, its last second included, a request is refused only if the limit of its period has been counted |
| UsageRefusal.UndeservedRefusal | src/common/interceptors/usage-tracker.interceptor.ts:33-47 | A run in which the limit is reached in one month and the flag set at the first instant of the next: a request is refused with nothing counted in its period |
| UsageRefusal.AllDeservedIff | src/common/interceptors/usage-tracker.interceptor.ts:31-98 | For a limit of at least 1, every refusal in every run is deserved if and only if no step comes after the month |
| UsageReset.Segments | src/modules/usage/usage.service.ts:29-48 | The segments of each kind of usage key, for colon-free organization ids |
| UsageReset.CounterPatternExact | src/jobs/schedulers/usage-reset.scheduler.ts:19-21 | Among well-formed keys the first pattern matches exactly the API-call counters |
| UsageReset.FlagPatternExact | src/jobs/schedulers/usage-reset.scheduler.ts:22-22 | Among well-formed keys the second pattern matches exactly the limit flags |
| UsageReset.ResetKeys | src/jobs/schedulers/usage-reset.scheduler.ts:17-24 | With other clients at work throughout: a counter or flag readable afterwards was written after a moment at which it was missing; every other well-formed key, cached plan limits included, is as those clients leave it |
| UsageReset.ResetCounts | src/jobs/schedulers/usage-reset.scheduler.ts:17-24 | A counter that the reset deletes ends with exactly the calls counted since its last deletion: none from before, none lost |
| UsageReset.UsageResetScheduler.HandleCron | src/jobs/schedulers/usage-reset.scheduler.ts:17-24 | The reset is the two deleting scans in order, and so does to every key what `UsageReset.ResetKeys` says |
| PlanCache.StepKeeps | src/modules/usage/usage.service.ts:91-116 | A cached document is always the plan in force one TTL before it expires |
| PlanCache.LimitsAtMostTtlOld | src/modules/usage/usage.service.ts:91-116 | With a positive TTL, over any history of switches, lookups and evictions, the limits returned at t are of a plan held at some instant of [t - TTL, t] |
| PlanCache.AtMostTtlOldIff | src/modules/usage/usage.service.ts:91-116 | That holds of every history if and only if the TTL is not 0 |
| PlanCache.ZeroTtlNeverRefreshes | src/cache/cache.service.ts:14-18 | With TTL 0, a lookup and a switch after which the old plan's limits are returned at every later instant |
| UsageSync.UsageRecordService.Create | src/modules/usage-records/usage-record.service.ts:13-26 | Upserts the one row keyed by organization, metric and period, or fails unchanged |
| UsageSync.UsageSyncScheduler.SyncOne | src/jobs/schedulers/usage-sync.scheduler.ts:30-64 | One key's turn with increments by others before and after its GET: skip, write the record, drop the counter on a foreign-key violation, or give up |
| UsageSync.UsageSyncScheduler.HandleCron | src/jobs/schedulers/usage-sync.scheduler.ts:20-67 | Scans with other clients at work, then takes every scanned key in turn; the run is the composition of the scan and the turns |
| UsageSync.TargetRoundTrip | src/jobs/schedulers/usage-sync.scheduler.ts:32-37 | The record written is for exactly the organization, metric and period the key was built from |
| UsageSync.TargetInjective | src/jobs/schedulers/usage-sync.scheduler.ts:32-33 | Two different counter keys never write the same record |
| UsageSync.RecordBetweenCounts | src/jobs/schedulers/usage-sync.scheduler.ts:29-65 | With repeated keys and increments anywhere, a synced record lies between the counter at the start and at the end; an unsynced one is untouched |
| UsageSync.PresentIsSynced | src/jobs/schedulers/usage-sync.scheduler.ts:29-50 | A counter present at the start, scanned, and met by an answering database is synced |
| UsageSync.TurnOutcome | src/jobs/schedulers/usage-sync.scheduler.ts:29-65 | One turn on a counter key: with an answering database the count read is written to the key's own record, or, if the organization is gone, the counter is deleted; with a failing database, an unknown metric or no counter, only what other requests counted changes |
| UsageSync.MetricNames | src/enums/UsageMetric.ts:1-6 | A metric is known exactly if it is one of the four names |
| UsageSync.FailuresStayLocal | src/jobs/schedulers/usage-sync.scheduler.ts:43-64 | Runs that differ only in one key's upsert failures agree on all other counters and records |
| UsageSync.ScannedAreCounters | src/jobs/schedulers/usage-sync.scheduler.ts:23-33 | Every key the scan hands to the loop is a counter key of four segments, if only well-formed keys are ever stored |
| UsageSync.CounterIsScanned | src/jobs/schedulers/usage-sync.scheduler.ts:23-25 | A counter that is there at the start and only counted up is among the scanned keys |
| UsageSync.SyncedEndToEnd | src/jobs/schedulers/usage-sync.scheduler.ts:20-67 | Over the whole run, scan included, the record of every such counter whose upserts are answered ends between the counter's value at the start and at the end |
| ApiKeys.ApiKeyService.MarkUsed | src/modules/api-keys/api-key.service.ts:111-124 | Writes last_used_at, and the 60-second marker, only when no marker is live |
| ApiKeys.ApiKeyService.CacheValidKey | src/modules/api-keys/api-key.service.ts:126-132 | Stores the entry under the hash with the configured TTL |
| ApiKeys.ApiKeyService.Authenticate | src/modules/auth/strategies/api-key.strategy.ts:31-85 | Prefix check, cached path, database path with its three refusals, refill and mark, as one function of the state |
| ApiKeys.ApiKeyService.Create | src/modules/api-keys/api-key.service.ts:160-211 | The three refusals in order, else the row is saved and cached and nothing else changes |
| ApiKeys.ApiKeyService.Revoke | src/modules/api-keys/api-key.service.ts:213-243 | Refuses a missing or already inactive key, else deactivates the row and drops its cache entry |
| ApiKeys.StepKeeps | src/modules/auth/strategies/api-key.strategy.ts:43-79 | Each operation keeps every cache entry, expired or not, the mirror of an active row |
| ApiKeys.CacheInvisible | src/modules/auth/strategies/api-key.strategy.ts:31-85 | After any run and any evictions, validation returns exactly what the table alone decides: organization, scopes, expiry, revocation |
| ApiKeys.GrantedIff | src/modules/auth/strategies/api-key.strategy.ts:26-85 | After any run and any evictions a key is granted if and only if the history created it, has not removed it, and it has no expiry or one not before now; the answer carries the organization and scopes it was created with, and a standing key is refused only as expired |
| ApiKeys.NotApiKeyIff | src/modules/auth/strategies/api-key.strategy.ts:31-41 | The request is left to other strategies exactly when it brings no token or one without the configured prefix |
| ApiKeys.LookupStores | src/modules/auth/strategies/api-key.strategy.ts:45-79 | A hit does not renew the entry; a key granted from the table is cached with its own fields for the TTL if it names an organization; a refusal stores nothing; a grant marks the use once in sixty seconds |
| ApiKeys.RemoveOutcome | src/modules/api-keys/api-key.service.ts:213-243 | Removal goes through exactly for an active key of that organization, and makes that row inactive and drops its entry, nothing else; the two refusals change nothing |
| ApiKeys.LastAdmissionBlocks | src/modules/api-keys/api-key.service.ts:111-124 | The latest admission's marker is the one stored, and any two admissions k apart in order are at least 60k seconds apart |
| ApiKeys.LastUsedThrottle | src/modules/api-keys/api-key.service.ts:111-124 | With uses of all keys interleaved, writes for one key are admitted 60 seconds apart and any T seconds see at most floor(T/60) + 1 admissions |
| ApiKeys.LastUsedIsLatest | src/modules/api-keys/api-key.service.ts:111-124 | After any uses of all keys, a key's last_used_at is its latest admitted use, and the rest of its row is as it was |
| ApiKeyRace.StaleEntryOrigin | src/modules/auth/strategies/api-key.strategy.ts:45-79 | In every reachable state an entry of a revoked key comes from a read or save before the revocation, and no delete since then came after its write |
| ApiKeyRace.NoNewHolder | src/modules/auth/strategies/api-key.strategy.ts:59-79 | After revocation no step creates a new holder of the row, nor without a holder a new entry |
| ApiKeyRace.DeadForever | src/modules/auth/strategies/api-key.strategy.ts:45-79 | A revoked key without holder or live entry is never granted by any later step of any run |
| ApiKeyRace.RevocationTakesHold | src/modules/auth/strategies/api-key.strategy.ts:45-79 | With a positive TTL, once the holders are gone, one TTL later the key is dead, even if its remover crashed |
| ApiKeyRace.TakesHoldIff | src/cache/cache.service.ts:14-18 | That holds of every run if and only if the TTL is not 0 |
| ApiKeyRace.ZeroTtlNeverForgets | src/cache/cache.service.ts:14-18 | With TTL 0, a run after which the entry of a revoked key is readable at any later instant, with nothing in flight |
| ApiKeyRace.RevokedKeyNeverGrants | src/modules/auth/strategies/api-key.strategy.ts:45-79 | From then on no validation of it succeeds, in any continuation |
| ApiKeyRace.DeleteIsFinalIff | src/modules/api-keys/api-key.service.ts:227-233 | The remover's delete is final at once if and only if no request in flight holds the row |
| ApiKeyRace.RevokedKeyGranted | src/modules/auth/strategies/api-key.strategy.ts:45-79 | A run from the start that reaches the failing side: the remover has deleted the entry, and the revoked key is granted |
| ApiKeyRace.ExpiredNeverGranted | src/modules/auth/strategies/api-key.strategy.ts:26-29 | In every reachable state of the interleaved system, a step that grants a key finds its row with no expiry before now, and the key is the one that request brought |
| ApiKeyRace.UnexpiredIsGranted | src/modules/auth/strategies/api-key.strategy.ts:26-57 | In every reachable state an unexpired key whose entry is readable, or whose active row is read after a miss, is granted |
| ApiKeyRace.OwnStepsOnly | src/modules/auth/strategies/api-key.strategy.ts:45-79 | A task in flight can take exactly the step it awaits, or die |
| ApiKeyRace.AloneIsValidate | src/modules/auth/strategies/api-key.strategy.ts:31-85 | A validation that no other step interrupts grants exactly what `ApiKeys.Lookup` grants and leaves the table and cache as it does |
| ApiKeyRace.AloneIsCreate | src/modules/api-keys/api-key.service.ts:186-206 | An uninterrupted creation leaves what `ApiKeys.Created` says |
| ApiKeyRace.AloneIsRemove | src/modules/api-keys/api-key.service.ts:213-243 | An uninterrupted removal leaves what `ApiKeys.Remove` says, whether the key is active or not |
| Organizations.OrganizationService.UpdateFields | src/modules/organizations/organization.service.ts:143-148 | Patches that row only; an unknown id changes nothing |
| Organizations.OrganizationService.UpdateMany | src/modules/organizations/organization.service.ts:135-141 | Patches exactly the matching rows and returns how many there were |
| TrialExpiry.TrialExpiryScheduler.HandleCron | src/jobs/schedulers/trial-expiry.scheduler.ts:15-49 | Cancel phase, then suspend phase, each with its own clock reading and its own failure |
| TrialExpiry.TrialTimeline | src/jobs/schedulers/trial-expiry.scheduler.ts:14-49 | For any run times and failures: suspended from the first successful suspend phase after trial end, cancelled from the first successful cancel phase of a later run past the grace period, else unchanged |
| TrialExpiry.NightExact | src/jobs/schedulers/trial-expiry.scheduler.ts:14-49 | One nightly run on one row: an active, suspended, unsubscribed organization whose trial ended more than 432000000 ms before is cancelled and deactivated; else an active unsubscribed one on an ended trial is suspended; else nothing changes |
| TrialExpiry.FiveNightsLater | src/jobs/schedulers/trial-expiry.scheduler.ts:14-49 | With exact 24-hour runs cancellation is exactly five runs after suspension |
| Billing.StripeService.CreateCustomer | src/modules/stripe/stripe.service.ts:19-25 | Every call that takes effect adds one customer; the caller may not learn of it |
| Billing.StripeService.CreateSubscription | src/modules/stripe/stripe.service.ts:33-51 | A remembered key replays its answer or refuses changed parameters; a new one adds a subscription or remembers the decline |
| Billing.BillingService.CreateSubscription | src/modules/billing/billing.service.ts:30-69 | The job's row and Stripe's state after an attempt cut off anywhere |
| Billing.SubscribedOnce | src/modules/billing/billing.service.ts:30-63 | Over any sequence of cut-off attempts: at most one subscription, belonging to the stored customer; surplus customers are exactly the attempts cut between create and save |
| Billing.CompletedIsStored | src/modules/billing/billing.service.ts:54-68 | A completed attempt has stored the id of the only subscription |
| Billing.AttemptStores | src/modules/billing/billing.service.ts:30-63 | What an attempt sends and stores: the organization's customer, its plan's price, the trial end in whole seconds only while in trial; TRIAL while in trial and ACTIVE otherwise; plan, activity and trial end untouched; completed only if the last call succeeded |
| Billing.RetryCompletesIff | src/modules/billing/billing.service.ts:52-63 | A failure-free retry completes if and only if Stripe has nothing under the key and accepts, or remembers it with the same trial end |
| Billing.StrandedForever | src/modules/billing/billing.service.ts:52-63 | An in-trial subscription not yet stored when the trial ends stays unstored under every sequence of retries |
| Billing.OneCutStrands | src/modules/billing/billing.service.ts:54-63 | A concrete attempt that leads there |
| Billing.DeclinedForever | src/modules/stripe/stripe.service.ts:40-50 | Once Stripe has declined the request under its key, no sequence of retries gets a subscription, even if Stripe would accept it by then |
| Billing.OneDeclineSticks | src/modules/billing/billing.service.ts:54-63 | One declined request leads there, whether or not its answer arrives |
| BillingTenants.KeyDetermines | src/modules/stripe/stripe.service.ts:48-48 | The idempotency key determines the customer and the price, whatever characters prices contain |
| BillingTenants.WorkKeeps | src/modules/billing/billing.service.ts:30-63 | An attempt of one organization's job keeps what every organization's rows and Stripe must agree on |
| BillingTenants.TenantsSubscribedOnce | src/modules/billing/billing.service.ts:30-63 | All organizations on one Stripe account, attempts in any order and cut off anywhere: each subscription is some organization's, for its stored customer and price, none has two, stored ids are its own, surplus customers are exactly the attempts cut between create and save |
| Lifecycle.StripeWebhookService.HandleWebhook | src/modules/stripe/stripe-webhook.service.ts:17-137 | Changes at most one row, one the event concerns, as the event's status maps; changes none only if none is concerned or the status is unknown |
| Lifecycle.UpdatePlan | src/modules/organizations/organization.service.ts:150-191 | The refusals in order; else the new plan, and a trial becomes active with no trial end |
| Lifecycle.SwitchSets | src/modules/organizations/organization.service.ts:158-190 | A switch goes through exactly for a paying or trial organization with a subscription, to another, priced plan, when Stripe accepts; then the plan is the new one, the status ACTIVE, a trial has no end any more, and nothing else changes |
| Lifecycle.SwitchRefusals | src/modules/organizations/organization.service.ts:158-183 | Each refusal is given exactly when it is the first thing wrong |
| Lifecycle.PlanIsGiven | src/modules/organizations/organization.service.ts:185-190 | In every run an organization's plan is the one given by its registration or its latest successful switch; no job, event or nightly run changes it |
| Lifecycle.RegisteredRow | src/modules/auth/auth.service.ts:153-161 | A new row: the plan, FREE for the plan named Free and TRIAL otherwise, active, and a trial end of that many 24-hour days from now if there are any |
| Lifecycle.EventConcerns | src/modules/stripe/stripe-webhook.service.ts:46-133 | An event is about the row that stores its subscription id, or the customer of a failed payment if one is named, and no other |
| Lifecycle.EventSets | src/modules/stripe/stripe-webhook.service.ts:59-137 | What each status and event sets: active, trialing, past_due and unpaid, canceled, unknown; deletion cancels and deactivates; a failed payment suspends |
| Lifecycle.StepKeeps | src/modules/stripe/stripe-webhook.service.ts:59-107 | Every operation keeps cancelled organizations inactive, the inactive inactive, and a stored subscription id stored |
| Lifecycle.LifecycleInvariants | src/modules/stripe/stripe-webhook.service.ts:59-107 | The same over every run of registrations, jobs, switches, events and nightly runs |
| Lifecycle.SubscribedIsOutOfCron | src/jobs/schedulers/trial-expiry.scheduler.ts:25-45 | Once a subscription id is stored, no later nightly run changes the organization |
| Lifecycle.JobIgnoresActivity | src/modules/billing/billing.service.ts:30-63 | An attempt's outcome, Stripe's state and the row but for its activity are the same whether the organization is active or not |
| Lifecycle.InactiveBilledIff | src/modules/billing/billing.service.ts:30-63 | An inactive organization gets a subscription in a step if and only if that is an attempt of its job that reads the row, has a customer, a price and Stripe's subscription, and whose save takes effect; it stays inactive |
| Lifecycle.CancelledThenBilled | src/modules/billing/billing.service.ts:30-63 | A run from registration in which the nightly runs cancel an organization before its late job: it ends inactive and paying |
| RowSaves.CancelledStaysInactive | src/modules/organizations/organization.service.ts:150-191 | CANCELLED implies inactive in every run, even with reads and saves of whole rows overlapping everything else |
| RowSaves.ReactivationOrigin | src/modules/organizations/organization.service.ts:150-191 | In every run, an inactive organization becomes active only by a save whose row was read, active, before its last deactivation |
| RowSaves.SubscriptionLossIff | src/modules/organizations/organization.service.ts:96-106 | In every run, a step loses a stored subscription id if and only if it is a renaming's save of a row read without one |
| RowSaves.SaveErasesSubscriptionIff | src/modules/organizations/organization.service.ts:96-106 | With anything at all between read and save, the save loses the stored subscription id if and only if there is one by then, it is a renaming, and the row had none when read |
| RowSaves.RenameCanEraseSubscription | src/modules/organizations/organization.service.ts:96-106 | A run from the start in which that happens |
| RowSaves.SaveUndoesDeactivationIff | src/modules/organizations/organization.service.ts:155-190 | With anything at all between read and save, the save undoes a deactivation if and only if the row was active when read and inactive at the save, and it is a renaming or the switch's guards held for the row as read and Stripe accepts |
| RowSaves.SaveWrites | src/modules/organizations/organization.service.ts:96-190 | With anything at all between read and save, a save puts back every field as read, a switch with the new plan and its trial ended; a refused or declined switch writes nothing |
| RowSaves.SaveCanReactivate | src/modules/organizations/organization.service.ts:155-190 | A run from the start in which a cancelled organization comes back |
| Webhooks.WebhookDeliveryService.CreatePending | src/modules/webhook-deliveries/webhook-delivery.service.ts:18-30 | Appends one PENDING row and returns its id, unless it fails before or after |
| Webhooks.WebhookDeliveryService.RecordAttempt | src/modules/webhook-deliveries/webhook-delivery.service.ts:32-57 | Overwrites status, code and attempt of that row only |
| Webhooks.WebhookProcessor.Run | src/jobs/processors/webhook.processor.ts:37-114 | One run of a job with any answer and any failures: rows, stored row id, whether it posted, whether it returned |
| Webhooks.ReadsSuccessIff | src/jobs/processors/webhook.processor.ts:48-113 | After any run of all jobs with failures anywhere, a row reads SUCCESS if and only if it is the one its job keeps and the last record of the job that took effect is a success |
| Webhooks.AcceptedButFailed | src/jobs/processors/webhook.processor.ts:79-106 | A run from the start in which the endpoint accepts every post and the row ends FAILED |
| Webhooks.ProcessTruthful | src/jobs/processors/webhook.processor.ts:57-106 | A run makes a row SUCCESS only with the endpoint's own accepting answer |
| Webhooks.DeliverSets | src/jobs/processors/webhook.processor.ts:57-113 | The row a posting run leaves and whether it returns, for every answer and every combination of failing writes |
| Webhooks.NoPost | src/jobs/processors/webhook.processor.ts:45-55 | A run stopped before its post neither posts nor returns, and leaves at most a PENDING row the job may have lost sight of |
| Webhooks.DeliveryUnderFailures | src/jobs/processors/webhook.processor.ts:48-113 | With failures anywhere and jobs interleaved: at most three posts a job, one row for each run cut between createPending and updateData and one more once the job has noted its row, and SUCCESS only if the endpoint really accepted |
| Webhooks.FinalRowsFrozen | src/jobs/processors/webhook.processor.ts:97-113 | A finished job's row never changes again |
| Webhooks.CalmProcess | src/jobs/processors/webhook.processor.ts:48-113 | Without failures a run writes this attempt's outcome into the job's one row and returns exactly on acceptance or 404 |
| Webhooks.DeliveryOutcome | src/jobs/processors/webhook.processor.ts:48-113 | Without failures, for all answers and interleavings: at most three posts, none after an acceptance or a 404; one row, PENDING exactly while a retry remains, then SUCCESS or FAILED as the last answer says, with its code and attempt |
| Webhooks.WebhookDispatcherService.Dispatch | src/modules/webhook-dispatchers/webhook-dispatcher.service.ts:17-43 | Adds one job per matching endpoint, in order |
| Webhooks.RecipientsExact | src/modules/webhook-dispatchers/webhook-dispatcher.service.ts:22-42 | The jobs are for exactly the endpoints of the organization that are active and list the event, each once |
| Webhooks.OneRowPerSubscriber | src/jobs/processors/webhook.processor.ts:45-55 | When all jobs of a dispatch have finished, each endpoint of the organization that is active and lists the event has exactly one row, final, and no other endpoint has any |
| Members.UserService.Remove | src/modules/users/user.service.ts:153-188 | The guards in order, each with its error; else only that user's activity is cleared |
| Members.UserService.UpdateRole | src/modules/users/user.service.ts:190-231 | The guards in order, each with its error; else only that user's role changes |
| Members.UserService.Update | src/modules/users/user.service.ts:233-257 | Changes the name only |
| Members.UserService.ConfirmEmailChange | src/modules/users/user.service.ts:300-346 | Changes the email of an active user of that organization, unless another user has it |
| Members.UserService.Preload | src/modules/users/user.service.ts:116-126 | Patches and returns an existing user, else fails unchanged |
| Members.InvitationService.SendOne | src/modules/invitations/invitation.service.ts:146-218 | For an item that runs alone: refuses an active user's or already invited email; else the row, its cache entry and the mail, stopping at the first that fails |
| Members.InvitationService.Accept | src/modules/invitations/invitation.service.ts:220-341 | The refusals in order; else the invited user is created or revived, and then, as far as no call fails, a pair issued, the row closed and the cache entry dropped |
| Members.InvitationService.ExpireInvitations | src/modules/invitations/invitation.service.ts:343-348 | Exactly the pending rows past their time become expired |
| Members.RegistrationService.Register | src/modules/auth/auth.service.ts:126-191 | A new organization with its owner in one transaction, or nothing if the plan is unknown, the email taken, or the transaction rolled back |
| Members.RemoveSets | src/modules/users/user.service.ts:153-188 | Exactly which removals go through, which error is given when, and that only activity is cleared |
| Members.RoleSets | src/modules/users/user.service.ts:190-231 | Exactly which role changes go through, which error is given when, and that the role becomes the asked one, nothing else |
| Members.RenameSets | src/modules/users/user.service.ts:233-257 | An existing user gets the given name, nothing else |
| Members.EmailSets | src/modules/users/user.service.ts:300-346 | An email change goes through exactly for an active user of the organization to an email no other user has, and sets it |
| Members.RegistrationSets | src/modules/auth/auth.service.ts:126-191 | An unverified active owner and the organization are added exactly when the plan exists, nobody has the email and the transaction commits |
| Members.SendRefusedIff | src/modules/invitations/invitation.service.ts:156-168 | An invitation is refused exactly if the email has an active user, here or elsewhere, or a pending invitation |
| Members.SendOutcome | src/modules/invitations/invitation.service.ts:170-218 | One that is not refused is stored, cached and mailed in this order up to the first failure, which is reported; what was done stays |
| Members.RefusedFor | src/modules/invitations/invitation.service.ts:225-283 | A token is refused for the first of: unknown, not pending, past its time, an active user here, an active user elsewhere |
| Members.AcceptOutcome | src/modules/invitations/invitation.service.ts:285-341 | What each failing call after the checks leaves behind, and the name the user ends with |
| Members.ExpireSets | src/modules/invitations/invitation.service.ts:343-348 | Exactly the pending invitations whose time is before now become expired; nothing else changes |
| Membership.InvitesKept | src/modules/invitations/invitation.service.ts:146-347 | Every step, the steps of sending included, keeps each cached invitation the mirror of its row |
| Membership.CacheAgreesIff | src/modules/invitations/invitation.service.ts:225-283 | After any run, a token is decided alike from the cache and from the row if and only if it is not a live entry of an accepted row that nothing else refuses |
| Membership.CacheInvisible | src/modules/invitations/invitation.service.ts:225-283 | In runs in which accepted entries are dropped, a token is accepted from the cache if and only if it is from the row, with the same invitation, role, email and organization |
| Membership.StatusFinal | src/modules/invitations/invitation.service.ts:273-347 | ACCEPTED and EXPIRED are final over every run |
| Membership.ClosesAgainIff | src/modules/invitations/invitation.service.ts:273-324 | An acceptance closes an already accepted row if and only if its cached entry is such a one and the pair is issued |
| Membership.AcceptedOnce | src/modules/invitations/invitation.service.ts:225-348 | Where accepted entries are dropped, an invitation that one operation of a run closes is closed by no later one |
| Acceptances.SavedFields | src/modules/invitations/invitation.service.ts:170-185 | A saved invitation carries the asked email, role and organization, the hash of the token, and an expiry one TTL from now |
| Acceptances.LetThroughIff | src/modules/invitations/invitation.service.ts:225-283 | Where accepted entries are dropped, the checks let an acceptance through if and only if the token's row is pending, not past its expiry, and no active user has the invited email |
| Acceptances.AcceptedUser | src/modules/invitations/invitation.service.ts:279-306 | Over every run, an acceptance the checks let through leaves exactly one user under the invited email, active, verified, with the row's role and organization; every other user is as before |
| Acceptances.AcceptedAsSent | src/modules/invitations/invitation.service.ts:170-306 | That user has the email, role and organization that the history asked for when the invitation was sent |
| Invitations.StepKeepsOnePendingIff | src/modules/invitations/invitation.service.ts:156-185 | Of all steps only a save can leave two pending invitations for an email, and does if and only if one came up after its item looked |
| Invitations.RequestKeepsOnePendingIff | src/modules/invitations/invitation.service.ts:127-144 | Over all schedules of one request's items and failures, each email keeps at most one pending invitation if and only if no two items that pass the checks beforehand share an email |
| Invitations.OneRequestTwoInvitations | src/modules/invitations/invitation.service.ts:127-144 | A schedule of a request naming one address twice that leaves two pending invitations for it |
| Invitations.AloneIsSendOne | src/modules/invitations/invitation.service.ts:146-218 | An item that no other interrupts leaves exactly what the specification of sendOne leaves |
| Invitations.AcceptedTwice | src/modules/invitations/invitation.service.ts:317-324 | A run from the start in which one invitation is accepted twice, its entry not dropped and its user removed in between |
| Membership.OwnersRemain | src/modules/users/user.service.ts:153-215 | An active owner never loses role, activity or organization, in any run |
| Membership.EveryOrganizationHasAnOwner | src/modules/users/user.service.ts:153-215 | In every reachable state every registered organization has an active owner |
| Membership.OwnerOrigin | src/modules/users/user.service.ts:190-215 | A user becomes an owner only by registering or by accepting an invitation as owner |
| Membership.VerifiedIff | src/modules/auth/auth.service.ts:235-250 | A user is verified exactly by confirming the email address or by accepting an invitation; nothing takes it back |
| Membership.OneAccountPerEmail | src/modules/users/user.service.ts:300-316 | In every reachable state an email has at most one account |
| Membership.ActiveUsersStay | src/modules/invitations/invitation.service.ts:279-306 | A user moves to another organization only after having been removed: one active throughout a run ends it where it began |
| Sessions.SessionService.IssueTokenPair | src/common/utils/jwt-utility.service.ts:28-36 | The new refresh hash replaces the user's old one, with the configured TTL |
| Sessions.SessionService.Refresh | src/modules/auth/auth.service.ts:292-329 | The refusals in order; else the stored hash is replaced by the new token's |
| Sessions.SessionService.Logout | src/modules/auth/auth.service.ts:506-515 | Drops the refresh hash and blacklists the access token for its remaining whole seconds |
| Sessions.SessionService.Validate | src/modules/auth/strategies/jwt.strategy.ts:31-59 | Accepts exactly an unexpired, unlisted token of a verified active user of its organization |
| Sessions.StoredIsLatest | src/common/utils/jwt-utility.service.ts:28-36 | After any run the stored hash is that of the token the history says was issued last |
| Sessions.RefreshSucceedsIff | src/modules/auth/auth.service.ts:292-329 | Refresh succeeds if and only if the token is the one last issued since the last logout, removal or loss of the stored hash, unexpired, and its user active in its organization |
| Sessions.RefusedBecause | src/modules/auth/auth.service.ts:292-305 | After any run a refresh token is refused for the first of these reasons that the history gives: expired, no account in its organization, deactivated, no stored hash, not the last issued |
| Sessions.AtMostOneAcceptable | src/modules/auth/auth.service.ts:299-305 | In any state at all, two acceptable refresh tokens of one user are the same string |
| Sessions.RotatedUnlessSameSecond | src/modules/auth/auth.service.ts:307-316 | A used refresh token is still accepted if and only if it was signed in the second it was used |
| Sessions.SpentTokenAccepted | src/modules/auth/auth.service.ts:307-316 | A run from the start in which a token just refreshed with is accepted again |
| RefreshRace.AloneIsRefresh | src/modules/auth/auth.service.ts:292-329 | A refresh that no other step interrupts does exactly what the specification of refresh does |
| RefreshRace.SecondPassesIff | src/modules/auth/auth.service.ts:299-316 | After one refresh has found its token's hash, a second with the same token passes too if and only if in between the hash was untouched and is unexpired, or the last write stored the same string |
| RefreshRace.OneTokenTwoPairs | src/modules/auth/auth.service.ts:299-316 | A run from the start in which one token yields two different pairs, the first of them already refused |
| Sessions.ListingKept | src/modules/auth/auth.service.ts:509-515 | Throughout every run, a token written to the blacklist stays barred until it expires, unless Redis loses the entry; one never written is not there |
| Sessions.LoggedOutIff | src/modules/auth/auth.service.ts:506-515 | From logout's write on, at every later instant of every run, the token is accepted if and only if Redis lost its entry, now is before exp, and its user is in its organization, active and verified (exp as in section 4.1.4 of RFC 7519) |
| Sessions.LoggedOutForGood | src/modules/auth/auth.service.ts:506-515 | While Redis does not lose the entry, the token is rejected at every later instant of every run |
| Sessions.AcceptedIff | src/modules/auth/strategies/jwt.strategy.ts:31-49 | After any run, read off the history: an access token is accepted if and only if it is unexpired, was not logged out since Redis last lost its entry, and the account last given to its user is in its organization, verified and active |
| Sessions.RemovedNeverAccepted | src/modules/auth/strategies/jwt.strategy.ts:43-50 | From a removal on, while nothing sets the account again, no access token of that user is accepted at any instant of any run |

## Left out

- Calendar.LocalMonth: the zone has a fixed offset; daylight saving changes are not modelled.
- Calendar.MonthSpan: the zone has a fixed offset.
- Calendar.EndIsLastSecond: the zone has a fixed offset.
- Calendar.TtlReachesLastSecond: the zone has a fixed offset.
- Calendar.FlagStaysInItsMonth: the zone has a fixed offset; what TTLs of 0 and -1 do to the stored flag is `Usage.FlagStaysUntilTouched` and `Usage.NoFlagInTheLastSecond`.
- Calendar.SameMonth: the zone has a fixed offset.
- Calendar.PeriodOrder: from year 1 on.
- Cache: each key family is a typed map (`apikey:`, `invite:`, `auth:`) where the model does not need the key text; JSON round trips are the identity; `flush` and `flushAll` are not modelled.
- Cache.CacheService.Incr: a stored text made of digits would be incremented by Redis and is refused here; only INCR writes the counters.
- Usage.SequentialAdmission: up to 23:59:58 of the month's last day, because it is false beyond (`Usage.WindowIsExact`); from a state whose counter never expires and whose cached plan, if any, is the organization's.
- Usage.WindowIsExact: for a start at least two seconds before the end of the month; later there is no room for a flag to be raised and to lapse.
- UsageRace.AdmissionBound: within the window, because it is false beyond (`UsageRace.BoundHoldsIff`), without a monthly reset or a plan switch meanwhile, and for an existing organization row.
- UsageRefusal.AllDeservedIff: for an organization whose month begins unflagged, a store without a counter for the next month, and years from 1 on.
- UsageReset.ResetKeys: for organization ids without colons (they are UUIDs), and for keys of other families not starting with `usage:`.
- UsageSync.UsageSyncScheduler.SyncOne: other clients' commands during the loop are increments; a counter holding a text instead of a number always fails its upsert.
- ApiKeys.ApiKeyService.MarkUsed: marker and row write are one step, so a crash between them, after which the use goes unrecorded for a minute, is not modelled.
- ApiKeys.LastUsedThrottle: without cache flushes or evictions of the markers; what is spaced is the admission of writes, the row may be written later.
- ApiKeys.LastAdmissionBlocks: admissions, as `ApiKeys.LastUsedThrottle`.
- ApiKeys.ApiKeyService.Create: the organization read is an input, and the token and id are fresh; the limit on keys per plan is not claimed under concurrency.
- Hashing: SHA-256 is an injective constructor; HMAC signatures, Argon2 and JWT signatures are not modelled.
- Billing.SubscribedOnce: for one organization, whose plan keeps its price, and a Stripe account that remembers idempotency keys for as long as attempts go on; attempts of one job do not overlap. Other organizations on the same account are `BillingTenants.TenantsSubscribedOnce`, attempt by attempt.
- BillingTenants.TenantsSubscribedOnce: whole attempts alternate; calls of different organizations' attempts do not interleave.
- Billing.BillingService.CreateSubscription: ids are never the empty string, which the code would treat as missing.
- Lifecycle.LifecycleInvariants: every operation is atomic; `RowSaves` splits the whole-row saves, and says what fails then. The plan lookup by name and Stripe's own reaction to `updateSubscription` are inputs or left out.
- RowSaves.ReactivationOrigin: names are not modelled, so a renaming saves the row as it was read; a save writes every modelled column.
- TrialExpiry.TrialTimeline: for organizations without a subscription, and without other operations in between.
- Webhooks: signatures, timestamps, headers and back-off delays are left out; BullMQ's stalled-job recovery is left out, so a run ends by return or throw.
- Webhooks.WebhookDispatcherService.Dispatch: adding to the queue does not fail.
- Webhooks.DeliveryOutcome: database and queue calls do not fail; `DeliveryUnderFailures` and `ReadsSuccessIff` cover failures.
- Members: passwords and the lower-casing of emails are left out; an organization's member limit is not claimed, because pending invitations are not counted.
- Members.UserService.ConfirmEmailChange: the token's lookup, its stored data and the pair issued at the end are left out; the unique index on emails is a check.
- Members.InvitationService.SendOne: the lookup of the sender that `send` does first is left out; its items' concurrency is `Invitations`.
- Members.InvitationService.Accept: a cache entry that does not parse is not modelled.
- Membership.AcceptedOnce: operations other than sending are one step each, so two concurrent acceptances of one token are not modelled; runs in which an accepted entry is not dropped are `Membership.ClosesAgainIff`.
- Membership.CacheInvisible: as `Membership.AcceptedOnce`; the exact condition is `Membership.CacheAgreesIff`.
- Invitations.RequestKeepsOnePendingIff: one request at a time, with no other operation in between; what other requests can do is `Invitations.StepKeepsOnePendingIff`.
- Sessions.RefreshSucceedsIff: operations one at a time; concurrent refreshes are `RefreshRace`, and `AtMostOneAcceptable` holds of any state. Login, acceptance, password and email changes appear as issuing a pair, their own checks left out.
- Audit logs, emails, logging, event dispatch as a side effect of other services, controllers, guards, DTO validation, read-only views: they do not affect the modelled decisions.
