# quotacontrol: a verified model

The quota-control library meters what projects use of a set of services. Many client processes share
one Redis counter per project, service and billing window; each buffers the usage it has credited in
a tracker and syncs it, from time to time, to the ledger of the quota server. The server also keeps
the access keys, and a two-level cache holds the quotas of both.

The project is checked with `dafny verify dfyconfig.toml`.

| file | what it is about |
|---|---|
| `Limits.dfy`, `SpendHistory.dfy` | how one increment is credited, which event it raises, and histories of increments |
| `SpendProtocol.dfy` | the step machine: any number of goroutines in any number of client processes, every Redis command, ledger read and tracker update one atomic step, in any interleaving, each call failing at any point, with or without having taken effect |
| `SpendBooks.dfy`, `SpendSafety.dfy`, `SpendTheorems.dfy` | its invariants, without and with assumptions about the environment, and the main results |
| `SpendHarm.dfy` | exactly which disappearances and overwritings of the counter break the limit |
| `SpendOrder.dfy` | exactly when events are notified in the order in which they were raised |
| `SpendRuns.dfy` | a call that runs alone as a run of the machine, and runs that break the limit |
| `CallCourses.dfy`, `SpendInterleaving.dfy` | one call command by command, with others acting and failures between any two commands, and its proof as a thread of the machine |
| `Amounts.dfy`, `SyncPipeline.dfy` | usage per timestamp and owner; the tracker and sync pipeline as a step machine |
| `SyncHonesty.dfy` | exactly which replies of the updater let an entry be billed more than once |
| `UsageSync.dfy`, `SyncRuns.dfy` | the tracker, shared with other goroutines, and the server's sync loops, updated in place, and a sync as a run of the pipeline |
| `UsageCache.dfy`, `QuotaClient.dfy`, `Admission.dfy` | the Redis usage methods, the client and the usage middleware, updated in place |
| `AccessKeys.dfy`, `KeyLifecycle.dfy`, `KeyAnswers.dfy`, `KeyServer.dfy` | the access-key operations as functions, what every sequence of them keeps, which answer each gives, and the server's methods proved against them |
| `QuotaCache.dfy` | the LRU in front of Redis |
| `Calendar.dfy`, `CacheKeys.dfy` | dates, billing windows, and the strings under which counters are kept |

## How the parts fit

`SpendQuota` on the real client state (`QuotaClient.Client.SpendQuota`) is proved to take the course
`CallCourses.CallCourse`, whatever other clients do to the counter between any two of its commands
and whichever of its commands fail, with or without effect. `SpendInterleaving.CallIsARun` and
`QuotaClient.SpendQuotaIsARun` prove that this course is what a thread of the step machine does in
any interleaving, down to the tracker, the accepted cost and the notification; and the theorems in
`SpendTheorems` hold for all runs of the machine. In the same way `UsageSync.Tracker.SyncUsage` is a
run of `SyncPipeline`, which the spend machine contains, and each method of `KeyServer.Server` is one
`AccessKeys.Run`.

## What is assumed of the environment

`Conservation`, `AcceptedIsFullyCredited`, `OverspendBound` and `NotifiedExactly` hold for every run,
with the server's `PrepareUsage` and `ClearUsage` at any moment. `HardLimit`, `BillingIsExact`,
`Election`, `Overshoot` and `EventOrder` assume a calm environment (`SpendSafety.Calm`):

- a live counter disappears (its expiry, or `ClearUsage`) only when all usage has reached the ledger
  and no call is between its peek and its increment;
- the placeholder expires only when no elected client is between its election and its SET;
- `PrepareUsage` sets the counter only to a ledger total that holds all usage, and while no client is
  elected;
- a sync never reports as refused what it has stored.

These are not more than is needed. `SpendHarm.DropIsHarmfulExactlyWhen` and
`SpendHarm.PrepareIsHarmfulExactlyWhen` say, for every state of a calm run in which some goroutine is
free, exactly when a disappearance of the key, or a `PrepareUsage` that sets the present ledger total
or an older one, lets calm continuations credit more than the limit leaves. And
`SyncHonesty.OverbillsExactlyWhen` says exactly when the replies of any run let an honest continuation
bill an entry more than once: when more of it was stored and yet reported as refused than was lost.

All results about a counter assume that every client uses the same `ServiceLimit`, that it passes
`Validate`, and that costs are not negative. `SpendRuns.EarlyExpiryOverspends` and
`SpendRuns.LateInitialiserOverspends` are runs, one for every limit, that accept twice the limit when
one of the first two conditions is broken, and `SyncPipeline.RefusedAfterInsertBillsTwice` is one
that breaks the last. Key operations are sequential, generated keys are new, and quota fetches of the
coherence result go to the cache that the server invalidates.

## What the code does and its comments do not say

- A failed sync entry is meant to be added back (`internal/usage/usage.go:86`). Over RPC it never is:
  the server returns its map together with an error, and the generated handler sends only the error
  (`proto/quotacontrol.gen.go:1788-1796`), so a single failing entry drops the whole reply of its
  call and nothing of that call is added back. In process, only keys that do not decode are lost.
  `SyncRuns.NothingLostExactlyWhen` states both, for all inputs.
- A spend that crosses the free limit and the overage warning together never raises the warning
  (`Limits.OverWarnIsHidden`). A spend that is credited in part returns before it would notify, so the
  hard-limit event is notified exactly when a spend lands on the limit (`Limits.AnnouncedExactlyWhen`,
  `SpendTheorems.NotifiedExactly`).
- A call notifies after its increment, and others may increment and return in between, so events can
  arrive in another order than they were raised in (`SpendOrder.CallsOvertake`): exactly when a call
  notifies one while a later one is already notified
  (`SpendOrder.NotifiedIsASubsequenceExactlyWhen`).
- The ledger read that initialises a counter asks for usage up to `GetEnd`, which is midnight at the
  start of the last day: on that day the present moment lies after the interval asked for
  (`Calendar.LastDayIsCutExactlyWhen`).
- `Validate` says that `freeWarn` and `overWarn` must not be negative, and does not look
  (`Limits.NegativeWarningsPass`).
- `SetDefaultAccessKey` does not look whether its target is active
  (`KeyLifecycle.SetDefaultIsSafeExactlyWhen`, `KeyLifecycle.SetDefaultCanPickAnInactiveKey`).
- `DisableAccessKey` takes a failing look-up of the default key for "there is one" and reports
  success: exactly then, if it disables the default, the project is left with none
  (`KeyLifecycle.DisableSucceedsServedExactlyWhen`), which `SetDefaultAccessKey` cannot repair
  (`KeyLifecycle.SetDefaultNeedsADefault`). `KeyLifecycle.ServedExactlyWhen` says the same of every
  operation and every failing call. It indexes an empty list exactly when it comes that far and its
  project has no active key (`KeyLifecycle.DisablePanicsExactlyWhen`), which a rotation that fails
  halfway can cause.
- `LRU.SetProjectQuota` writes the backend under the quota's access key, which is empty for a
  project's quota (`QuotaCache.ProjectQuotaDoesNotSurvive`, `QuotaCache.SafeExactlyWhen`).
- Only the first `Stop` syncs, so usage recorded after it stays in the tracker.

## Model

| member | source | states |
|---|---|---|
| SpendTheorems.Conservation | client.go:289-320 | in every run, with any failures and expiries: opening ledger total + all credits = ledger + trackers and running syncs + credits between increment and tracker + lost, minus what an updater stored twice |
| SpendTheorems.AcceptedIsFullyCredited | client.go:306-320 | in every run: accepted cost + the cost of calls about to return + that of lost replies = the cost of all fully credited increments, and all other credits are partial |
| SpendTheorems.OverspendBound | client.go:294-320 | in every run: the accepted cost is exactly that, and with the opening ledger exceeds the hard limit by at most the largest undercount of a counter that was incremented |
| SpendTheorems.HardLimit | client.go:294-320 | in every calm run: opening total plus accepted cost never exceeds max(opening, `OverMax`); with a live counter the accepted cost is the growth of the capped counter, less calls about to return, lost replies and one partial credit |
| SpendTheorems.BillingIsExact | proto/proto.go:117-147 | at every moment of a calm run the credits are min(counter, OverMax) − min(opening, OverMax), all of it is found somewhere, and at most one spend is credited in part |
| SpendTheorems.Election | cache.go:198-237 | at most one client initialises at a time, always behind the placeholder; increments only ever hit a live, non-negative counter; the counter is its initial value plus all increments since |
| SpendTheorems.Overshoot | cache.go:222-237 | with N goroutines and costs of at most c the counter never exceeds max(opening, OverMax − 1 + N·c) |
| SpendTheorems.EventOrder | proto/proto.go:117-147 | in increment order the events raised strictly increase; OverMax is among them exactly when the quota is used up; reaching FreeMax is always announced; what is notified was raised, and no kind twice |
| SpendOrder.OrderedExactlyWhen | client.go:306-319 | one calm step keeps the notified events in order, and before all that are yet to be notified, exactly unless it notifies an event while another thread holds an earlier one |
| SpendOrder.RunIsOrderedExactlyWhen | client.go:306-319 | a calm run keeps that at every moment exactly if none of its steps overtakes so |
| SpendOrder.NotifiedIsASubsequenceExactlyWhen | client.go:306-319 | after a calm run the notified events are a subsequence of the raised ones exactly if no step notifies an event after a later one; without overtaking none does |
| SpendOrder.CallsOvertake | client.go:306-319 | two calls of one unit that raise FreeWarn, FreeMax and notify FreeMax, FreeWarn |
| SpendTheorems.NotifiedExactly | client.go:306-319 | in every run: notified + lost + about to be notified = the events of fully credited spends; so in a finished run that lost none, an event is notified exactly when a spend crosses its threshold, OverMax exactly when one lands on the limit |
| SpendHarm.DropIsHarmfulExactlyWhen | cache.go:183-219 | in every state of a calm run with a free goroutine: losing a live counter is harmful exactly when the ledger lacks usage or a call has peeked; losing the placeholder exactly when a client is elected and the ledger is below the limit |
| SpendHarm.PrepareIsHarmfulExactlyWhen | server.go:156-168 | there, a PrepareUsage that sets any value up to the ledger total (its read may be old) is harmful exactly when that is less than the usage accounted for, up to the limit, or a client is elected and the ledger is below the limit |
| SpendBooks.ExecKeepsBooks | client.go:268-321 | the accounting equalities over every run: usage, accepted cost and notified events against the history, and the counter against its base |
| SpendSafety.ExecKeepsSteady | client.go:192-222 | the inductive invariant of calm runs: one initialiser, placeholder, capped counter equal to the usage accounted for |
| SpendSafety.ExecKeepsBounded | cache.go:222-237 | counter plus the costs of those that have peeked stays below the overshoot bound |
| SpendRuns.AloneIsARun | client.go:268-321 | a call that meets no other is a run of the machine: same outcome, counter, tracker entry, accepted cost, notification and history entry |
| CallCourses.CallSteps | client.go:268-304 | with others acting and failures between any two commands, the call's course is the machine's steps of a thread |
| CallCourses.WaitsExactlyWhen | cache.go:198-220 | a peek waits exactly when GET finds the placeholder, or finds nothing and SETNX then finds something |
| CallCourses.TimesOutExactlyWhen | client.go:192-222 | EnsureUsage times out exactly when three peeks in a row wait |
| CallCourses.EnsureReturnsTheCounter | client.go:192-222 | a usage that EnsureUsage returns is what the counter then holds; a time-out takes three to six commands, any end at most eight |
| SpendInterleaving.CallIsARun | client.go:268-321 | in any interleaving with any failures the thread ends where the call's course ends; its last steps record exactly the call's credit, and accept the cost exactly if the call returns spent = true |
| SpendRuns.EarlyExpiryOverspends | cache.go:183-196 | for every limit a run with one early expiry of the counter accepts twice the limit |
| SpendRuns.LateInitialiserOverspends | cache.go:213-219 | for every limit a run in which the placeholder expires under its elected client accepts twice the limit |
| Limits.CreditIsMetered | proto/proto.go:117-147 | a credit is the growth of the capped counter, exactly unless a refund crosses the limit downwards |
| Limits.EventMeansCrossing | proto/proto.go:106-147 | each event is raised exactly by the spend that crosses its threshold while no higher-priority one hides it |
| Limits.AnnouncedExactlyWhen | client.go:312-319 | each event is notified exactly when it is raised, but OverMax exactly when the spend lands on the limit |
| Limits.NegativeWarningsPass | proto/proto.go:86-103 | Validate accepts what its messages ask for exactly when no warning is negative, and does accept negative ones |
| Limits.FirstErrorIsGiven | proto/proto.go:86-103 | which error Validate gives |
| Limits.EventsAdvance | proto/proto.go:117-147 | once the counter has reached an event's threshold only later kinds are raised |
| Limits.OverWarnIsHidden | proto/proto.go:130-139 | a crossing of the overage warning raises it exactly when the spend started past the free limit and ends below the hard one |
| SpendHistory.ExactBilling | proto/proto.go:117-147 | over a whole history the credits add up to the growth of the capped counter |
| SpendHistory.OnePartialSpend | proto/proto.go:141-146 | at most one spend is credited in part, and it is the one that fills the quota |
| SpendHistory.EventsIncrease | proto/proto.go:117-147 | the events of a history strictly increase, each within what the counter has passed |
| SpendHistory.OverspendIsUndercount | proto/proto.go:117-147 | however the counter was reset, the credits exceed the limit by at most the largest undercount |
| SpendHistory.FullEventsAreCrossings | client.go:312-319 | some fully credited spend raises an event exactly when a spend crosses its threshold, or lands on the hard limit |
| SyncPipeline.SyncConservation | internal/usage/usage.go:47-107 | for every entry, timestamp, owner or altogether, over every interleaving of adds, swaps, pushes and add-backs: stored + pending + in flight + unreported = opening + recorded + stored twice |
| SyncPipeline.AtMostOnceBilling | internal/usage/usage.go:76-107 | an honest updater never stores more than was recorded for any entry, over all failures, retries and missing replies |
| SyncPipeline.RefusedAfterInsertBillsTwice | internal/usage/usage.go:86-91 | an updater that stores an entry and reports it as refused is billed twice |
| SyncHonesty.OverbillsExactlyWhen | server.go:301-304 | after any run with any replies, an honest continuation stores more of an entry than was recorded exactly if more of it was stored and yet reported as refused than was lost |
| UsageSync.UsageServer.SyncAccessKeyUsage | server.go:292-311 | stores exactly the entries that decode and that the store takes; the reply names the decodable ones and tells which were stored; an error exactly if one was not |
| UsageSync.UsageServer.SyncProjectUsage | server.go:266-280 | the same for projects, where every entry is in the reply |
| UsageSync.Tracker.AddKeyUsage | internal/usage/usage.go:47-54 | one entry grows by the amount, every other is as before |
| UsageSync.Tracker.AddProjectUsage | internal/usage/usage.go:57-64 | the same for a project |
| UsageSync.Tracker.SyncUsage | internal/usage/usage.go:76-107 | with others recording between its steps: leaves exactly the refused entries and those recordings in the tracker, adds exactly the storable ones to the ledger, and fails exactly when an entry could not be stored, whatever the order of buckets, keys and replies |
| SyncRuns.SyncRun | internal/usage/usage.go:76-107 | any schedule of pushes, add-backs and recordings of others that ends leaves exactly the refused entries plus the recordings in the tracker, and exactly the stored ones in the ledger |
| SyncRuns.EntryByEntryEnds | internal/usage/usage.go:80-105 | pushing each entry and adding it back at once if refused is such a schedule |
| SyncRuns.SyncUsageIsARun | internal/usage/usage.go:76-107 | the method and every such schedule agree on tracker, apart from the recordings of others in each, and on the ledger |
| SyncRuns.NothingLostExactlyWhen | proto/quotacontrol.gen.go:1788-1796 | a sync loses nothing of what was pending or recorded meanwhile exactly when, over RPC, no entry with usage fails, or, in process, every such key decodes |
| UsageCache.RedisCache.PeekUsage | cache.go:198-220 | GET and SETNX with others between them and failures of each: the course of PeekCourse, and no other key changes |
| UsageCache.RedisCache.SpendUsage | cache.go:222-237 | after a peek that finds a live counter below the limit, INCRBY on whatever the counter is by then; otherwise what the peek leaves |
| UsageCache.RedisCache.ClearUsage | cache.go:190-196 | removes this counter only and says whether there was one, unless DEL fails |
| UsageCache.UsageKeyText | cache.go:93-97 | a counter's Redis key is its key after "usage:" |
| UsageCache.PutElsewhere | cache.go:95-97 | counters of different keys are independent |
| QuotaClient.Client.EnsureUsage | client.go:192-222 | the retry loop takes the course of EnsureCourse: usage, time-out or error, the number of commands, and the counter it leaves |
| QuotaClient.Client.SpendQuota | client.go:268-321 | nothing happens without a quota, cost or limit; otherwise reply, counter, tracker and notifications are those of the call's course, and no entry changes but that of the quota's access key, or of its project if it has none |
| QuotaClient.KeysAreBilledBeforeProjects | client.go:307-311 | a credit goes to the access key of the quota and to no project, or without a key to the project and to no access key, at the time of the call |
| QuotaClient.ReplyTells | client.go:289-320 | spent exactly if credited in full; the total is the counter after the increment, or the usage that was too high; time-out, quota and other errors told apart |
| QuotaClient.LateReplyTells | cache.go:222-237 | after EnsureUsage has let a call through: another placeholder, a lost counter, a counter at the limit by then or a failing increment give the named errors and no credit |
| QuotaClient.LoneReply | client.go:268-321 | reply, credit and counter of an undisturbed call in numbers |
| QuotaClient.NotifiesExactlyWhen | client.go:306-319 | a call notifies an event exactly if it is credited in full, crosses to that event or lands on the hard limit, and the notification gets through; never more than one |
| QuotaClient.CountersAgreeExactlyWhen | client.go:405-411 | two calls share a counter exactly if project, service and both dates of their windows agree |
| QuotaClient.OtherCountersAreUntouched | client.go:287-294 | a call of one service or project does not change what another's EnsureUsage finds |
| QuotaClient.SpendQuotaIsARun | client.go:268-321 | that effect is what the machine's thread does in any interleaving: same counter, and its last steps add the same to the tracker, the accepted cost and the notifications |
| QuotaClient.Client.Stop | client.go:372-388 | the first stop of a running client syncs the tracker; any other changes nothing |
| QuotaClient.FinalFlush | client.go:372-388 | that sync stores all pending usage exactly when every entry with usage can be stored, and then leaves only what others have recorded meanwhile |
| Admission.EnsureUsage | middleware/middleware_usage.go:19-72 | the gate changes the counter only; it rejects by failed or timed-out usage, missing limit or usage + cost over the limit, in that order |
| Admission.SpendUsage | middleware/middleware_usage.go:74-131 | the verdict and the effect of the spend around a request |
| Admission.ServeRequest | middleware/middleware_usage.go:19-131 | both handlers one after the other, for any request, with others acting and failures at any command; a request's own cost goes before the default, and a cost of zero passes |
| Admission.VerdictTells | middleware/middleware_usage.go:47-65 | a time-out, an error, or a usage without room for the cost rejects without a credit; otherwise the spend decides |
| Admission.AdmittedExactlyWhenCredited | middleware/middleware_usage.go:47-128 | then a metered request is admitted exactly when it is credited, in full; only a rejection over the quota may be credited in part |
| Admission.QuietAdmission | middleware/middleware_usage.go:47-128 | without others and failures it ends as Admit says |
| Admission.AdmittedExactlyWhenItFits | middleware/middleware_usage.go:47-65 | a request is admitted exactly when counter + cost is at most OverMax, credited in full then, and otherwise leaves the counter and is not credited |
| Admission.GateSavesPartialCharges | middleware/middleware_usage.go:62-65 | the gate changes what is billed exactly for requests that start below the limit and end above it |
| Admission.GatedAdmissionIsExact | middleware/middleware_usage.go:47-128 | over any sequence of requests: admitted exactly those whose cost still fits, credited in full; the counter is the opening usage plus the credits and stays within the limit |
| KeyLifecycle.RunKeepsSane | server.go:388-554 | whichever store call fails in whichever operation, a project never has two defaults and an inactive key is never one |
| KeyLifecycle.DefaultsStayUnique | server.go:388-554 | the same over every sequence of operations and failures |
| KeyLifecycle.ServedExactlyWhen | server.go:356-525 | for every operation and every failing store call: each project keeps its default exactly unless a rotation of the default, a SetDefault or a Disable of the default stops at one of the listed calls |
| KeyLifecycle.DisableSucceedsServedExactlyWhen | server.go:506-524 | a Disable that reports success keeps that exactly unless it is of the default key and its look-up of the default fails |
| KeyLifecycle.EveryProjectIsServed | server.go:356-525 | after every sequence of operations none of which stops there, in particular of completed ones, each project with a key has exactly one default, it is active, and no Disable indexed an empty list |
| KeyLifecycle.CompletedNeverLoses | server.go:356-525 | sequences of completed operations are of that kind |
| KeyLifecycle.ServedNeverPanics | server.go:509-515 | from a served state no operation indexes an empty list, whichever call fails |
| KeyLifecycle.RunKeepsServed | server.go:356-525 | one completed operation keeps that, and Disable then finds a non-empty list |
| KeyAnswers.CreateAnswers | server.go:356-386 | which answer Create gives, and the record and store it leaves: default exactly if the project has no active key |
| KeyAnswers.RotateAnswers | server.go:388-417 | which answer Rotate gives |
| KeyAnswers.UpdateAnswers | server.go:419-446 | which answer Update gives |
| KeyAnswers.SetDefaultAnswers | server.go:448-482 | SetDefault succeeds only for a stored key of the project that has an active default; a key of another project is refused with nothing changed |
| KeyAnswers.DisableRefuses | server.go:488-507 | Disable refuses unknown keys and the only active key of a project, with nothing changed |
| KeyAnswers.DisableAnswers | server.go:509-524 | which answer Disable gives otherwise |
| KeyAnswers.FetchAnswers | client.go:150-166 | a cached record is served, a missing one comes from the store and is cached |
| KeyLifecycle.RotateReplaces | server.go:388-417 | a completed rotation yields a new key with the old settings and default flag, switches the old one off and changes nothing else |
| KeyLifecycle.UpdateChangesOnlyGiven | server.go:419-446 | an update changes the given fields of its key and nothing else, never its active or default flag; a failed one changes nothing |
| KeyLifecycle.SetDefaultMoves | server.go:448-482 | a completed SetDefault makes the target the only default of its project and changes nothing else |
| KeyLifecycle.SetDefaultIsSafeExactlyWhen | server.go:448-482 | it keeps the invariant exactly when the target is not an inactive key of the project |
| KeyLifecycle.SetDefaultCanPickAnInactiveKey | server.go:448-482 | two keys for which it does not |
| KeyLifecycle.SetDefaultNeedsADefault | server.go:460-463 | without an active default SetDefault fails and changes nothing |
| KeyLifecycle.DisablePanicsExactlyWhen | server.go:488-525 | the empty list is indexed exactly when the second listing works and the project of the key has no active key |
| KeyLifecycle.FailedRotationThenPanic | server.go:394-406 | a rotation of the only key that fails after its first write leads there |
| KeyLifecycle.DisableCanLoseTheDefault | server.go:509-522 | two keys and a Disable that reports success and leaves no default |
| KeyLifecycle.CacheStaysCoherent | server.go:227-259 | over every sequence of operations with new keys and working invalidations, and fetches, with store failures, a cached quota carries the stored key record |
| KeyLifecycle.LostInvalidation | server.go:543-554 | without its invalidation a write keeps that exactly when the key was not cached or its record did not change |
| KeyLifecycle.DisabledKeyStaysCached | server.go:543-554 | a cached key disabled without it is still fetched as active |
| KeyLifecycle.AppliedFailureServesExactlyWhen | server.go:388-554 | when the failing store call takes effect nevertheless: uniqueness holds, and the projects keep a default exactly when the operation with one more working call does not lose one |
| KeyLifecycle.AppliedFailureCoheresExactlyWhen | server.go:543-554 | the cache then stays coherent exactly unless that call is a write to a cached key that changes its record: listed for each operation by its state and arguments |
| KeyLifecycle.DisableCanLeaveAStaleCache | server.go:488-525 | two keys and a Disable so interrupted, after which the cache serves the disabled key as active |
| KeyServer.Server.CreateAccessKey | server.go:356-386 | the method does what the specification of the operation says, for every failing store call |
| KeyServer.Server.RotateAccessKey | server.go:388-417 | likewise |
| KeyServer.Server.UpdateAccessKey | server.go:419-446 | likewise; only the given fields change |
| KeyServer.Server.SetDefaultAccessKey | server.go:448-482 | likewise, for some active default as the first one listed |
| KeyServer.Server.DisableAccessKey | server.go:488-525 | likewise, for some remaining active key as the first one listed |
| KeyServer.Server.GetDefaultAccessKey | server.go:342-354 | finds an active default of the project exactly if there is one |
| KeyServer.Server.GetAccessQuota | server.go:227-259 | three store calls and the cache fill, for every failing one and an unknown key or project |
| KeyServer.Server.FetchKeyQuota | client.go:143-174 | a cached quota is served as it is, a missing one is fetched and cached; unexpected failures give neither quota nor error; a quota comes with the reason why it may not be used |
| KeyServer.RefusalIsTheFirst | client.go:167-173 | which refusal a quota comes with: the first that applies of chains, activity, origin and service, in terms of the record's fields |
| KeyServer.FetchPassesExactlyWhen | client.go:143-174 | after any run that keeps the cache coherent, a fetch finds a quota exactly for a stored key, and lets the request through exactly when that key is active and its fields allow chains, origin and service |
| KeyServer.ValidateChains | proto/proto.go:39-55 | its loop finds exactly the chains asked for that the project does not allow, and none exactly if all are allowed |
| QuotaCache.LruRefines | cache.go:296-341 | for any safe operations and any losses in either layer, a get returns the value last set and not deleted since |
| QuotaCache.SetStaysFound | cache.go:333-336 | a value that was set, under any key, is found by every get until it is evicted, deleted or set again, whether or not the backend took it, lost it or answers |
| QuotaCache.FoundStaysFound | cache.go:320-331 | so is a value that a get has found |
| QuotaCache.BackendIsFound | cache.go:320-341 | without memory a get finds what the backend holds, nothing, or fails with it |
| QuotaCache.ProjectKeysDiffer | cache.go:343-345 | projects have keys of their own |
| QuotaCache.EvictionIsInvisible | cache.go:320-341 | while Redis keeps its entries the cache is exactly the map, whatever memory loses |
| QuotaCache.SafeExactlyWhen | cache.go:333-341 | a write is harmless in every context exactly when it reaches the backend and is under the quota's own access key |
| QuotaCache.ProjectQuotaDoesNotSurvive | cache.go:308-314 | after memory has lost it, a project's quota is not found under the project but under the empty access key |
| QuotaCache.Lru.GetQuota | cache.go:320-331 | the method is the get of the layers: memory, then backend, then filled |
| QuotaCache.Lru.SetQuota | cache.go:333-336 | the method is the set of the layers |
| QuotaCache.Lru.DeleteQuota | cache.go:338-341 | the method is the delete of the layers |
| CacheKeys.KeysAreFaithful | client.go:405-411 | two usage keys are equal exactly if project, service and both dates are; only services without a name share one |
| CacheKeys.OneCounterPerMonth | client.go:405-411 | with a monthly cycle two requests share a counter exactly if they fall in the same month |
| CacheKeys.ServiceIsVisible | client.go:407-410 | a key with a service is never one without |
| CacheKeys.NamesDiffer | proto/proto.go:224-246 | known services have different names |
| CacheKeys.NamesInKeys | proto/proto.go:224-246 | the names |
| CacheKeys.LimitNamesDiffer | proto/proto.go:71-75 | known services have limits under different names |
| CacheKeys.FullDateForm | client.go:408-410 | a date is written in the full-date form of section 5.6 of RFC 3339, and its digits are year, month and day |
| CacheKeys.KeyText | client.go:405-411 | what a key looks like |
| Calendar.WindowIsTheMonth | proto/proto.go:175-187 | a day lies in the window exactly if it is in the month of now, leap years included |
| Calendar.WindowsTile | proto/proto.go:175-187 | the day after a window's end starts the next one, the day before its start ends the previous one |
| Calendar.OwnStartLastsAMonth | proto/proto.go:175-187 | a cycle with its own start and no end has as many days as the month of its start, and the day after it is the start moved by one month |
| Calendar.OwnEndsAreKept | proto/proto.go:175-187 | a cycle's own start and end are the window's; without a start it is midnight of the first of the month |
| Calendar.LastDayIsCutExactlyWhen | client.go:204-205 | the present moment lies after the interval asked of the ledger exactly on the last day of the month past midnight, and never before it |

## Left out

- Redis, JSON, the LRU's size and clocks, HTTP, the RPC plumbing: a cache is a map that may lose entries at any time, a call is an atomic step that may fail.
- The first of several matching keys in a listing: any of them may come first.
- Which entries a ledger read covers: the machine has one counter and a ledger of that project, service and window; `GetUsage` with its store queries and nil endpoints, and `SetInterval`, are not modelled.
- Admission.GatedAdmissionIsExact: requests run one at a time and the counter stays live between them; with concurrent requests the gate is not exact, and HardLimit is what holds.
- KeyServer.Server.FetchKeyQuota: whether the allowed origins match is a parameter, and so are the project's chains; of the quota only its access-key record is kept.
- KeyServer.Server.GetAccessQuota: the project information and the limit of the quota, beyond whether their look-ups succeed.
- KeyLifecycle.CacheStaysCoherent: operations are sequential, and a client's own in-memory LRU, which nobody invalidates, is not part of it.
- The owner's project: the ledger is kept by timestamp and by access key or project, not by the project column the server adds to an access key's row.
- KeyServer.Server.CreateAccessKey: origins are a given list and a given verdict of their validation, and the new key is given; it is assumed to be new where that matters.
- Calendar.WindowIsTheMonth: times of day and daylight-saving shifts; the location only passes through.
- 64-bit overflow: amounts are mathematical integers.
- Rate limits, permissions, `VerifyQuota`, `SetCost`, response headers, logging, the ticker and the `Run` loop, and the deprecated calls other than `PrepareUsage`: they branch per request or only forward, and would add easy members only.
