# Control plane verification

Dafny models of the stateful cores of the control plane, with proofs of what they promise over whole runs.
`dafny verify dfyconfig.toml` checks everything.

How the models are built:

- A method under an `asyncio.Lock`, or a transaction under the tenant's advisory lock, is one atomic step. Stores are
  classes with the source's fields; each method is proved equal to a step of a specification function, and the
  theorems are about runs of those steps, for every schedule and every input.
- Clocks are integers (milliseconds) read at each call and never run backwards. `uuid4` values arrive as parameters
  and are fresh where a theorem says so (`Enabled`).
- Hashes are function parameters. Results that need collision resistance say so with `NoCollision`, which speaks only
  of the links of the two chains at hand; nothing assumes an injective function.
- Exceptions are outcomes (`Option`, or an outcome datatype). A method's `requires` asks for a sound store, a clock that
  does not run backwards and fresh ids; the exceptions to what the source accepts are listed under "Left out".

| component | files |
|---|---|
| sliding-window rate limiter, one-time workload assertions | `ExpiryQueue`, `RateLimiter`, `RateLimiterMeaning`, `ReplayGuard`, `AssertionRules` |
| fenced leases, durable work queue in both stores, scheduler | `Leases`, `LeaseTerms`, `WorkQueue`, `WorkRuns`, `WorkStores`, `Scheduler`, `WorkDue` |
| action broker over idempotency and attempt stores | `ExecutionStores`, `Broker`, `BrokerSafety`, `BrokerOutcomes`, `BrokerAuthorization`, `BrokerEndings`, `BrokerProgress` |
| two-phase retention, governed changes | `RetentionRules`, `Retention`, `RetentionSafety`, `RetentionRecords`, `RetentionHolds`, `Governance`, `GovernanceSafety`, `GovernanceEvents` |
| portable JSON, event chain, evidence bundles | `Text`, `PortableJson`, `PortableJsonProofs`, `PortableJsonVectors`, `Ledger`, `Bundles`, `BundleProofs`, `BundleMeaning` |
| disaster recovery | `Recovery`, `RecoverySafety`, `PromotionTargets`, `PromotionReach`, `PromotionWindow`, `RecoveryEvents`, `BreakGlass`, `RecoveryStore` |
| delivery lineage, policy composition | `Lineage`, `LineageAssessment`, `LineageCompleteness`, `PolicySemantics`, `PolicyProofs`, `PolicyRuntimes`, `PolicyOrdering` |

The broker is a state machine with one step per `await` of `execute`: any number of calls share the stores, an awaited
store or ledger operation succeeds, fails without effect or takes effect and fails, and a crash is a call that is never
scheduled again. Policy engines, approvals, executors and credential providers are answers of the environment.

Eight properties one might expect of the code fail; each has a concrete input and its exact condition:

- A retired trust root can retire before its own activation (`RetirementCanPrecedeActivation`):
  `RetirementFollowsActivationWhen` for one rotation, `RootsRetireLateWhen` for runs.
- The Python and TypeScript policy compositions can reach different outcomes: over `true` and 1, over constraints named
  `__proto__`, over integers past the safe range, and over an infinity and an integer that overflows to it
  (`MixedExample`, `IgnoredExample`, `RoundedExample`, `OverflowExample`; `RuntimesDifferWhen`). On account of
  `__proto__` TypeScript's outcome can also depend on the order of the decisions (`OrderExample`,
  `TypeScriptOrderMattersWhen`), and grouping them can lose a denial, though never add one (`GroupingExample`,
  `TypeScriptGroupingMattersWhen`, `GroupingOnlyWeakens`).
- A planned restore can be put out of reach of promotion for good, for instance by an attempt that becomes uncertain
  after the others were reconciled (`LateUncertaintyExample`); `PromotableExactlyWhen` says when it is within reach.
- The in-memory work queue can lose a job: enqueueing new work under the id of another job replaces it
  (`LostJobExample`; `EnqueueConservesWhen`). The theorems about runs are about jobs with ids of their own.
- An invocation that leaves no result can leave its attempt started rather than uncertain, when the executor returned
  something that is no result of the action (`StaysStartedExample`; `StaysStartedExactlyWhen`).
- A recorded delivery chain can be assessed as incomplete (`MissedExample`; `CompleteExactlyWhen`, and
  `CompleteWhenUnambiguous` for records that leave the search no choice).
- Different assertions can share the text of their replay keys, if a NUL occurs in a field (`NulExample`;
  `ReplayTextsDiffer`).
- A deletion can lack its execution record (`LostRecordExample`; `RecordedUnlessRolledBack`). Its intent is always on
  record (`SettledWasIntended`).

## Model

| member | source | states |
|---|---|---|
| RateLimiter.SlidingWindowRateLimiter.Check | packages/python/prodkit-control-runtime/src/prodkit_control_runtime/security.py:245-275 | a request is decided exactly as a plain log of accepted requests says: allowed when fewer than limit + burst accepts of the key lie in (now - window, now] and the key is live or fewer than `max_keys` keys are; remaining count and retry hint are the log's; only an accept extends the log |
| RateLimiter.EveryWindowIsBounded | packages/python/prodkit-control-runtime/src/prodkit_control_runtime/security.py:194-275 | in every log a run can produce, no window of that length ending at any instant holds more than limit + burst accepts of a key |
| RateLimiter.LiveKeysAreBounded | packages/python/prodkit-control-runtime/src/prodkit_control_runtime/security.py:257-267 | at most `max_keys` keys are live at any time |
| RateLimiter.RetryHintIsExact | packages/python/prodkit-control-runtime/src/prodkit_control_runtime/security.py:269-273 | a key denied at its capacity is allowed after `s` whole seconds, nothing intervening, exactly when `s` is at least the hint |
| RateLimiter.RoomReturnsWithOldest | packages/python/prodkit-control-runtime/src/prodkit_control_runtime/security.py:268-273 | a full bucket gets room exactly when its oldest live accept leaves the window |
| RateLimiter.LiveKeyKeepsItsPlace | packages/python/prodkit-control-runtime/src/prodkit_control_runtime/security.py:257-267 | while a live key waits, the number of keys never becomes the obstacle |
| RateLimiter.DecisionAnswers | packages/python/prodkit-control-runtime/src/prodkit_control_runtime/security.py:252-275 | buckets and heap in step with the log give the decision the log calls for, on all three branches; in particular the heap is not empty when it is consulted |
| RateLimiter.HeapSizeIsBucketCount | packages/python/prodkit-control-runtime/src/prodkit_control_runtime/security.py:206-243 | with heap and buckets in bijection the heap is exactly as long as there are buckets |
| RateLimiter.SlidingWindowRateLimiter.HeapIsBounded | packages/python/prodkit-control-runtime/src/prodkit_control_runtime/security.py:206-243 | in every valid limiter the heap has one entry per bucket and at most `max_keys` |
| RateLimiter.SlidingWindowRateLimiter.PruneBucket | packages/python/prodkit-control-runtime/src/prodkit_control_runtime/security.py:214-223 | drops exactly the timestamps that left the window from one bucket, forgets an empty bucket, and restores the bijection without making more entries due |
| RateLimiter.SlidingWindowRateLimiter.NextValidExpiration | packages/python/prodkit-control-runtime/src/prodkit_control_runtime/security.py:225-232 | skips stale heads only; with heap and buckets in bijection it skips nothing |
| RateLimiter.SlidingWindowRateLimiter.PruneHead | packages/python/prodkit-control-runtime/src/prodkit_control_runtime/security.py:239-243 | handling one due head strictly lowers the number of due entries, which is why eviction ends |
| RateLimiter.SlidingWindowRateLimiter.EvictExpired | packages/python/prodkit-control-runtime/src/prodkit_control_runtime/security.py:234-243 | afterwards every bucket holds just its timestamps inside the window, nothing is due, and the bijection holds |
| RateLimiter.DropExpired | packages/python/prodkit-control-runtime/src/prodkit_control_runtime/security.py:216-217 | the pop loop leaves what filtering by the cutoff leaves |
| RateLimiterMeaning.DecisionMeans | packages/python/prodkit-control-runtime/src/prodkit_control_runtime/security.py:245-275 | a request is allowed exactly when its key has fewer than limit + burst accepts in the last `windowSeconds` seconds and is one of them, or of fewer than `max_keys`; counted over the log of accepts, without the limiter's own functions |
| RateLimiterMeaning.WindowIsBounded | packages/python/prodkit-control-runtime/src/prodkit_control_runtime/security.py:194-275 | the promise in those terms: at most limit + burst accepts of a key in any such window |
| ReplayGuard.InMemoryReplayStore.EvictExpired | packages/python/prodkit-control-runtime/src/prodkit_control_runtime/security.py:63-67 | afterwards the map holds exactly the claims of the history that have not lapsed, in bijection with the heap |
| ReplayGuard.InMemoryReplayStore.ClaimOnce | packages/python/prodkit-control-runtime/src/prodkit_control_runtime/security.py:69-80 | a claim is a replay exactly when the key has a live claim in the history, capacity is exhausted exactly when it is not and `max_entries` keys are live, and only a fresh claim is added |
| ReplayGuard.WorkloadIdentityVerifier.VerifyAndClaim | packages/python/prodkit-control-runtime/src/prodkit_control_runtime/security.py:130-184 | the verdict is a rule over the history of claims: policy checks in order, then one live claim per nonce; an accepted assertion extends the list of acceptances and keeps them separated |
| ReplayGuard.AcceptedAtMostOnce | packages/python/prodkit-control-runtime/src/prodkit_control_runtime/security.py:150-184 | an assertion with a nonce occurs at most once among the acceptances of a run: its claim lapses exactly when the validity check starts to refuse it, skew included |
| ReplayGuard.AcceptanceIsSeparated | packages/python/prodkit-control-runtime/src/prodkit_control_runtime/security.py:163-184 | an acceptance whose key has no live claim is a full validity period away from every earlier acceptance under that key |
| ReplayGuard.ClaimExtendsHistory | packages/python/prodkit-control-runtime/src/prodkit_control_runtime/security.py:69-80 | a fresh claim keeps the map faithful to the history, and claims of one key from overlapping |
| ReplayGuard.HeldKeysAreLive | packages/python/prodkit-control-runtime/src/prodkit_control_runtime/security.py:63-80 | once no due claim is left, the keys of the map are the live keys of the history |
| AssertionRules.AcceptedExactlyWhen | packages/python/prodkit-control-runtime/src/prodkit_control_runtime/security.py:130-184 | a credential is accepted exactly when it authenticates as an assertion for this tenant, audience and issuer (up to trailing slashes), of an allowed subject and client, short-lived, valid now within the skew, with the claims the policy requires and a nonce that is not claimed, with room for the claim |
| AssertionRules.PassesExactlyWhen | packages/python/prodkit-control-runtime/src/prodkit_control_runtime/security.py:147-172 | the checks before the claim, as one condition on assertion, policy and time |
| AssertionRules.RefusalsAreTrue | packages/python/prodkit-control-runtime/src/prodkit_control_runtime/security.py:147-172 | the reason a credential is refused for is true of it |
| AssertionRules.ReplayTextsDiffer | packages/python/prodkit-control-runtime/src/prodkit_control_runtime/security.py:173-176 | two assertions share a replay key text exactly when issuer, subject, tenant and nonce agree, if the first three have no NUL |
| AssertionRules.NulExample | packages/python/prodkit-control-runtime/src/prodkit_control_runtime/security.py:173-176 | with a NUL, different assertions can share it |
| Leases.InMemoryLeaseStore.AcquireLease | packages/python/prodkit-control-runtime/src/prodkit_control_runtime/ha.py:67-96 | ties acquire to the specification step: a live lease is handed back to its owner and refused to others, anything else is a new grant under the next token |
| Leases.InMemoryLeaseStore.RenewLease | packages/python/prodkit-control-runtime/src/prodkit_control_runtime/ha.py:98-112 | ties renew to the specification step |
| Leases.InMemoryLeaseStore.ReleaseLease | packages/python/prodkit-control-runtime/src/prodkit_control_runtime/ha.py:114-123 | ties release to the specification step |
| Leases.TokenMovesOnlyOnGrant | packages/python/prodkit-control-runtime/src/prodkit_control_runtime/ha.py:78-95 | the token of a resource changes exactly when an acquire of that resource hands out a new lease, by one, and that lease is current and carries it |
| Leases.GrantsIncrease | packages/python/prodkit-control-runtime/src/prodkit_control_runtime/ha.py:67-123 | over any run the tokens of a resource's new grants strictly increase, across renewal, release and expiry |
| Leases.NeverCurrentAgain | packages/python/prodkit-control-runtime/src/prodkit_control_runtime/ha.py:67-142 | a lease that stopped being current is never current again, whatever calls follow: every later renewal and release of it fails |
| Leases.RenewalKeepsToken | packages/python/prodkit-control-runtime/src/prodkit_control_runtime/ha.py:98-112 | renewal keeps the grant and its token, makes it current until exactly the new expiry, and touches no other resource |
| LeaseTerms.GrantLastsItsTerm | packages/python/prodkit-control-runtime/src/prodkit_control_runtime/ha.py:67-96 | over any run of other calls a new grant is current until exactly `now + ttl`, unless its holder renews or releases it; until then an acquire gives it to its owner again and tells everybody else it is taken |
| LeaseTerms.GrantedExactlyWhenFree | packages/python/prodkit-control-runtime/src/prodkit_control_runtime/ha.py:78-95 | a valid acquire makes a new grant exactly when nobody holds the resource |
| LeaseTerms.ReleaseFrees | packages/python/prodkit-control-runtime/src/prodkit_control_runtime/ha.py:114-123 | a release is accepted exactly from the current holder; then nobody holds the resource, and no other resource is touched |
| LeaseTerms.PresentedExactlyWhen | packages/python/prodkit-control-runtime/src/prodkit_control_runtime/ha.py:98-142 | renewal and release are accepted exactly while the lease presented is the live one, by id, owner and token |
| LeaseTerms.InvalidExactlyWhen | packages/python/prodkit-control-runtime/src/prodkit_control_runtime/ha.py:67-142 | a call is refused as invalid, without effect, exactly for a blank name or a term that is not positive or over a day |
| WorkQueue.StepKeepsConsistent | packages/python/prodkit-control-runtime/src/prodkit_control_runtime/ha.py:167-334 | every operation keeps: attempt = fence token <= `max_attempts`; leased exactly when a lease record exists; queued only with attempts left; identities and jobs in bijection |
| WorkRuns.RunConserves | packages/python/prodkit-control-runtime/src/prodkit_control_runtime/ha.py:167-288 | over any run whose new jobs have ids of their own, no job is lost, no terminal job changes, no attempt is taken back, and the invariant and the depth bound hold |
| WorkRuns.EnqueueConservesWhen | packages/python/prodkit-control-runtime/src/prodkit_control_runtime/ha.py:167-196 | enqueueing loses or changes no job exactly unless the item is new work, admitted by the depth limit, under the id of a job with another identity |
| WorkRuns.LostJobExample | packages/python/prodkit-control-runtime/src/prodkit_control_runtime/ha.py:194-196 | a queued job is gone once another tenant enqueues work under its id |
| WorkRuns.StepKeepsBounded | packages/python/prodkit-control-runtime/src/prodkit_control_runtime/ha.py:167-196 | queued plus leased jobs of a queue, over all tenants, never exceed `max_queue_depth` |
| WorkRuns.ReEnqueueFindsTheJob | packages/python/prodkit-control-runtime/src/prodkit_control_runtime/ha.py:171-183 | enqueueing the same identity again, however much later, changes nothing and returns the job it became, or a conflict exactly when kind, payload or budget differ |
| WorkRuns.EffortIsBounded | packages/python/prodkit-control-runtime/src/prodkit_control_runtime/ha.py:198-288 | the steps of a run that change a job number at most its remaining measure, at most twice the attempt budget plus one; the measure is zero exactly for terminal jobs |
| WorkRuns.EveryGrantCounts | packages/python/prodkit-control-runtime/src/prodkit_control_runtime/ha.py:220-249 | an acquire that returns work changes that job: one more attempt, the new fence token, and a lease that is current at once |
| WorkRuns.SupersededForever | packages/python/prodkit-control-runtime/src/prodkit_control_runtime/ha.py:251-334 | a holder that is no longer current can never complete or retry the job, whatever runs in between |
| WorkRuns.GrantSupersedes | packages/python/prodkit-control-runtime/src/prodkit_control_runtime/ha.py:220-249 | a new grant supersedes every earlier holder of the job on the spot |
| WorkRuns.SucceedsAtMostOnce | packages/python/prodkit-control-runtime/src/prodkit_control_runtime/ha.py:251-259 | over any run a job is completed at most once, and never once it is terminal |
| WorkRuns.HighestTokenCompletes | packages/python/prodkit-control-runtime/src/prodkit_control_runtime/ha.py:251-259 | a successful complete is by the holder of the job's highest token, and leaves it succeeded |
| WorkStores.InMemoryDurableWorkQueue.EnqueueWork | packages/python/prodkit-control-runtime/src/prodkit_control_runtime/ha.py:167-196 | ties enqueue to the specification step, for any item; the store stays sound exactly unless a job id is reused under another identity |
| WorkStores.SortedCandidates | packages/python/prodkit-control-runtime/src/prodkit_control_runtime/ha.py:211-219 | lists exactly the eligible jobs, ascending by (available_at, created_at, job id) |
| WorkStores.InMemoryDurableWorkQueue.WalkCandidates | packages/python/prodkit-control-runtime/src/prodkit_control_runtime/ha.py:220-249 | the loop buries jobs out of attempts and lends the first that has one left |
| WorkStores.InMemoryDurableWorkQueue.AcquireWork | packages/python/prodkit-control-runtime/src/prodkit_control_runtime/ha.py:198-249 | is the scan of the eligible jobs in that order |
| WorkStores.InMemoryDurableWorkQueue.CompleteWork | packages/python/prodkit-control-runtime/src/prodkit_control_runtime/ha.py:251-259 | ties complete to the specification step, ownership check included |
| WorkStores.InMemoryDurableWorkQueue.RetryWork | packages/python/prodkit-control-runtime/src/prodkit_control_runtime/ha.py:261-288 | ties retry to the specification step: requeue, or dead letter when the budget is spent |
| WorkStores.PostgresDurableWorkQueue.AcquireWork | packages/python/prodkit-control-postgres/src/prodkit_control_postgres/ha.py:340-380 | the one-row-at-a-time loop ends, and is the scan of the eligible jobs in some order by (available_at, created_at) |
| WorkStores.StoresAgreeWithoutTies | packages/python/prodkit-control-postgres/src/prodkit_control_postgres/ha.py:340-380 | without ties in (available_at, created_at) that order is the in-memory one, so both stores bury and lease the same jobs |
| WorkStores.ScanUpToTies | packages/python/prodkit-control-postgres/src/prodkit_control_postgres/ha.py:340-380 | with ties: a job is lent exactly when some eligible one has attempts left, it has the least key among those, every spent job of a smaller key is dead-lettered and none of a larger key touched |
| WorkStores.FinishOrder | packages/python/prodkit-control-postgres/src/prodkit_control_postgres/ha.py:346-380 | the rows the loop buried, the row it took and the rest form one order, whose scan has the loop's result |
| Scheduler.FinishesExactlyWithinLease | packages/python/prodkit-control-runtime/src/prodkit_control_runtime/ha.py:464-485 | whatever other calls run while the handler works, the worker's complete, or its retry, is accepted exactly when it comes before the lease it was given ends |
| Scheduler.RunKeepsHold | packages/python/prodkit-control-runtime/src/prodkit_control_runtime/ha.py:198-334 | no call of anyone else takes a leased job away before its lease ends |
| WorkDue.AcquireTakesDueWork | packages/python/prodkit-control-runtime/src/prodkit_control_runtime/ha.py:198-249 | an acquire lends the earliest job of the queue and tenant that waits since its time or was left by a worker whose lease has ended, and has attempts left; dead-letters the earlier ones that are spent; comes back empty exactly when all that is due is spent; and leaves everything else alone |
| WorkDue.LostWorkersJobComesBack | packages/python/prodkit-control-postgres/src/prodkit_control_postgres/ha.py:340-380 | a job whose worker is gone stays with it until its lease ends, whatever other calls are made; an acquire from then on finds work, and this very job if no other has an earlier or equal key |
| WorkDue.RetriedJobComesBack | packages/python/prodkit-control-runtime/src/prodkit_control_runtime/ha.py:261-288 | a job put back with a delay is untouched until the delay has passed, whatever calls are made, and is taken up by an acquire from then on |
| WorkDue.FinishedForGood | packages/python/prodkit-control-runtime/src/prodkit_control_runtime/ha.py:251-288 | a completed job, and one whose last attempt failed, stays as it ended over every later run |
| WorkDue.CurrentMeans | packages/python/prodkit-control-runtime/src/prodkit_control_runtime/ha.py:318-334 | a holder may finish a job exactly while the live lease is the one presented, by id, owner, token and tenant |
| WorkDue.ValidInputIs | packages/python/prodkit-control-runtime/src/prodkit_control_runtime/ha.py:207-210 | a request is invalid exactly for a blank name, or a term that is not positive or over a day |
| ExecutionStores.IdempotencyStore.ClaimKey | packages/python/prodkit-control-postgres/src/prodkit_control_postgres/execution.py:27-51 | first claim takes the key; a later one is told whether the digest is the same; never changes a taken key |
| ExecutionStores.IdempotencyStore.CompleteKey | packages/python/prodkit-control-postgres/src/prodkit_control_postgres/execution.py:53-69 | ties complete to the specification step of the chosen profile: the in-memory store overwrites, PostgreSQL keeps the first result |
| ExecutionStores.InMemoryExecutionAttemptStore.CreateAttempt | packages/python/prodkit-control-runtime/src/prodkit_control_runtime/attempts.py:17-25 | refuses a used attempt id; otherwise the new record is its action's latest |
| ExecutionStores.InMemoryExecutionAttemptStore.ReplaceAttempt | packages/python/prodkit-control-runtime/src/prodkit_control_runtime/attempts.py:27-36 | ties replace to the unchecked specification step; the two dictionaries stay in step |
| ExecutionStores.PostgresExecutionAttemptStore.ReplaceAttempt | packages/python/prodkit-control-postgres/src/prodkit_control_postgres/execution.py:103-133 | ties replace to the checked specification step: whole identity and transition table |
| BrokerSafety.ActSound | packages/python/prodkit-control-runtime/src/prodkit_control_runtime/broker.py:84-474 | what one step of a call writes is permitted by the shared state, and keeps the call's own share of the invariant, whatever the awaited operation does |
| BrokerSafety.OtherCallOk | packages/python/prodkit-control-runtime/src/prodkit_control_runtime/broker.py:84-474 | a permitted write of one call leaves every other call's share of the invariant alone |
| BrokerSafety.AfterKeepsInv | packages/python/prodkit-control-runtime/src/prodkit_control_runtime/broker.py:84-474 | the invariant holds after any interleaving of any number of calls, with failures and crashes at any step |
| BrokerOutcomes.AtMostOneEffect | packages/python/prodkit-control-runtime/src/prodkit_control_runtime/broker.py:187-266 | over any interleaving the executor is invoked at most once for a tenant's idempotency key |
| BrokerOutcomes.OutcomesShareOneResult | packages/python/prodkit-control-runtime/src/prodkit_control_runtime/broker.py:192-220 | every call that returns, by executing or by reuse, returns what the key's single invocation returned, for the same action digest |
| BrokerOutcomes.AttemptDecidesResult | packages/python/prodkit-control-runtime/src/prodkit_control_runtime/broker.py:220-361 | a key has at most one attempt, and a stored result makes it succeeded or failed as the result says |
| BrokerOutcomes.StoredResultHasAttempt | packages/python/prodkit-control-runtime/src/prodkit_control_runtime/broker.py:220-367 | with a journal, a stored result has that attempt |
| BrokerOutcomes.EveryEffectIsJournalled | packages/python/prodkit-control-runtime/src/prodkit_control_runtime/broker.py:220-266 | with a journal, every invocation carries the id of an attempt of its key that is past claimed |
| BrokerOutcomes.InvocationIsWrittenAhead | packages/python/prodkit-control-runtime/src/prodkit_control_runtime/broker.py:222-266 | at the moment of the invocation the journal already says started |
| BrokerOutcomes.TerminalStaysForever | packages/python/prodkit-control-runtime/src/prodkit_control_runtime/broker.py:267-361 | no later step of any call changes a terminal attempt |
| BrokerOutcomes.UncertainIsNeverResolved | packages/python/prodkit-control-runtime/src/prodkit_control_runtime/broker.py:267-303 | an uncertain attempt stays uncertain and its key never gets a result, whatever happens later |
| BrokerOutcomes.AttemptWritesAreLegal | packages/python/prodkit-control-runtime/src/prodkit_control_runtime/broker.py:222-361 | every attempt the broker writes is new and claimed, or a replacement the PostgreSQL table accepts, even over the unchecked in-memory store |
| BrokerOutcomes.ProfilesAgree | packages/python/prodkit-control-runtime/src/prodkit_control_runtime/broker.py:187-367 | so each step does the same over either pair of stores |
| BrokerOutcomes.RunsAgree | packages/python/prodkit-control-runtime/src/prodkit_control_runtime/broker.py:187-367 | and so does every run |
| BrokerAuthorization.StartsAreAuthorized | packages/python/prodkit-control-runtime/src/prodkit_control_runtime/broker.py:84-148 | every recorded start follows, in its own call, a non-deny policy event bound to the action's digest and, where that required it, an approval recorded in between |
| BrokerAuthorization.EffectsAreRecorded | packages/python/prodkit-control-runtime/src/prodkit_control_runtime/broker.py:243-266 | every invocation has its start on record for that call and action digest |
| BrokerEndings.UnclearedCallEnds | packages/python/prodkit-control-runtime/src/prodkit_control_runtime/broker.py:84-148 | a call that policy or approval does not clear raises; nothing is stored or invoked, and the ledger holds exactly how far it came |
| BrokerEndings.UnservedCallEnds | packages/python/prodkit-control-runtime/src/prodkit_control_runtime/broker.py:150-165 | a cleared call whose executor is unknown, or takes no attempts or leases where the broker uses them, raises before a lease is issued |
| BrokerEndings.ForeignKeyEnds | packages/python/prodkit-control-runtime/src/prodkit_control_runtime/broker.py:187-191 | a key that belongs to another digest makes the call raise, with its lease still out |
| BrokerEndings.RepeatedCallEnds | packages/python/prodkit-control-runtime/src/prodkit_control_runtime/broker.py:192-218 | a key taken for this action: the lease is revoked, no store changes, and the call returns the stored result exactly when there is one by this executor |
| BrokerEndings.ExecutingCallEnds | packages/python/prodkit-control-runtime/src/prodkit_control_runtime/broker.py:187-389 | a cleared call for an unused key invokes its executor exactly once, with its attempt and lease; whatever executor and revocation do, ledger entries, key, attempt and outcome are determined |
| BrokerEndings.RaisedExecutorLeavesDoubt | packages/python/prodkit-control-runtime/src/prodkit_control_runtime/broker.py:267-303 | when the executor raises: one effect, no result under the key, the attempt uncertain, the ledger told of the lease's revocation or its failure and last of the uncertainty, and the call raises |
| BrokerEndings.UnrevokedLeaseLeavesDoubt | packages/python/prodkit-control-runtime/src/prodkit_control_runtime/broker.py:309-343 | the same when the executor returned but its lease was not revoked, or not on record |
| BrokerEndings.StaysStartedExactlyWhen | packages/python/prodkit-control-runtime/src/prodkit_control_runtime/broker.py:305-307 | an attempt stays started, with nothing told after the start and the lease out, exactly when the executor returned what is no result of this action by this executor |
| BrokerEndings.StaysStartedExample | packages/python/prodkit-control-runtime/src/prodkit_control_runtime/broker.py:305-307 | a result for another action |
| BrokerProgress.UndisturbedCallExecutes | packages/python/prodkit-control-runtime/src/prodkit_control_runtime/broker.py:84-389 | a cleared call for an unused key that nothing disturbs returns what its executor returned, after exactly one invocation, with the result stored and the attempt closed, and no other change to the stores |
| BrokerProgress.UndisturbedCallReuses | packages/python/prodkit-control-runtime/src/prodkit_control_runtime/broker.py:192-218 | a cleared call for a key that holds this action's result returns it, marked as reused, without invoking anything or changing a store |
| RetentionRules.DecisionIsSound | packages/python/prodkit-control-postgres/src/prodkit_control_postgres/governance.py:1356-1428 | deletion is decided exactly when no active hold covers the resource and the first matching rule (or the default) lets it go and its retention and grace have elapsed; the decision names policy, revision and the holds |
| RetentionRules.RuleForIsFirst | packages/python/prodkit-control-core/src/prodkit_control_core/contracts/governance.py:104-105 | the rule used is the first for the resource type |
| RetentionRules.CurrentPolicyIsLatest | packages/python/prodkit-control-postgres/src/prodkit_control_postgres/governance.py:1133-1159 | the policy in force is the effective one with the latest effective time, then the highest revision |
| RetentionHolds.HoldStandsExactlyWhen | packages/python/prodkit-control-postgres/src/prodkit_control_postgres/governance.py:309-445 | over the events of a run a hold is active exactly when an event placed it, active and of the tenant, under a new id, and no approved release of it, not before its placement, has come since |
| RetentionHolds.UnreleasedHoldProtects | packages/python/prodkit-control-postgres/src/prodkit_control_postgres/governance.py:309-647 | from its placement on, with no approved release, a hold stays as it was placed and the adapter is called for nothing it covers, whatever the run does |
| RetentionHolds.NoDeletionUnderHold | packages/python/prodkit-control-postgres/src/prodkit_control_postgres/governance.py:552-647 | over every run, no step has the adapter delete what a hold standing by the run's events covers |
| RetentionHolds.PoliciesExactlyApplied | packages/python/prodkit-control-postgres/src/prodkit_control_postgres/governance.py:225-294 | the policies are exactly those an approved application made the next revision |
| RetentionHolds.TakenUpIntent | packages/python/prodkit-control-postgres/src/prodkit_control_postgres/governance.py:552-647 | which of its ends a deletion transaction comes to: deleted and recorded, deleted only, cancelled or nothing, by holds, policy in force, elapsed windows and how it ends |
| RetentionHolds.UndisturbedRetention | packages/python/prodkit-control-postgres/src/prodkit_control_postgres/governance.py:484-647 | of the candidates given, exactly those that no hold covers and whose retention and grace have run out under the policy in force are deleted and recorded |
| RetentionHolds.EvaluationsRecorded | packages/python/prodkit-control-postgres/src/prodkit_control_postgres/governance.py:499-550 | every candidate's evaluation is on record with what was decided |
| RetentionHolds.BeginExactlyWhen | packages/python/prodkit-control-postgres/src/prodkit_control_postgres/governance.py:484-520 | the intent transaction is refused, changing nothing, exactly for a repeated resource, another tenant's candidate or no policy in force |
| Retention.PostgresGovernanceStore.PlaceLegalHold | packages/python/prodkit-control-postgres/src/prodkit_control_postgres/governance.py:309-353 | ties the transaction to the specification step |
| Retention.PostgresGovernanceStore.ReleaseLegalHold | packages/python/prodkit-control-postgres/src/prodkit_control_postgres/governance.py:380-445 | ties the transaction to the specification step |
| Retention.PostgresGovernanceStore.ApplyRetentionPolicy | packages/python/prodkit-control-postgres/src/prodkit_control_postgres/governance.py:225-294 | ties the transaction to the specification step |
| Retention.PostgresGovernanceStore.RecordIntents | packages/python/prodkit-control-postgres/src/prodkit_control_postgres/governance.py:499-550 | the intent transaction, loop over candidates included, is the specification step |
| Retention.PostgresGovernanceStore.DeletePending | packages/python/prodkit-control-postgres/src/prodkit_control_postgres/governance.py:552-647 | one round of the deletion loop, re-evaluation included, is the specification step under every way its transaction can end |
| RetentionSafety.StepKeepsInv | packages/python/prodkit-control-postgres/src/prodkit_control_postgres/governance.py:225-647 | what every transaction keeps, whatever interleaves: the history is sound, and each open intent is unsettled and on record |
| RetentionSafety.DeletionIsSafe | packages/python/prodkit-control-postgres/src/prodkit_control_postgres/governance.py:484-647 | when the adapter deletes, its intent is on record from before, every hold ever placed on the resource has been released since, and the policy in force is the intent's, with its retention and grace elapsed |
| RetentionSafety.RevisionNamesPolicy | packages/python/prodkit-control-postgres/src/prodkit_control_postgres/governance.py:238-243 | a revision names one policy of the history |
| RetentionSafety.IntentIsUnique | packages/python/prodkit-control-postgres/src/prodkit_control_postgres/governance.py:499-550 | an execution id is intended once |
| RetentionSafety.SettledOnce | packages/python/prodkit-control-postgres/src/prodkit_control_postgres/governance.py:552-647 | it is settled once: cancelled, or given to the adapter once and then, immediately, recorded as executed |
| RetentionSafety.SettledWasIntended | packages/python/prodkit-control-postgres/src/prodkit_control_postgres/governance.py:499-647 | nothing is settled that was not intended before |
| RetentionRecords.RecordedUnlessRolledBack | packages/python/prodkit-control-postgres/src/prodkit_control_postgres/governance.py:552-647 | after any run some deletion lacks its execution record exactly when a deletion transaction of the run rolled back after its adapter call |
| RetentionRecords.LostForever | packages/python/prodkit-control-postgres/src/prodkit_control_postgres/governance.py:552-647 | a deletion without a record never gets one, whatever runs later |
| RetentionRecords.ConfirmedDeletion | packages/python/prodkit-control-postgres/src/prodkit_control_postgres/governance.py:574-647 | a confirmed intent adds the adapter call and its execution record exactly when the transaction is not rolled back |
| RetentionRecords.LostRecordExample | packages/python/prodkit-control-postgres/src/prodkit_control_postgres/governance.py:552-647 | a run that ends with an adapter call and no execution record |
| Text.CompareScalarValues | packages/typescript/control/src/portable.ts:9-20 | the comparator loop returns the sign of the code point order and zero only for equal strings |
| Text.LessTotal | packages/typescript/control/src/portable.ts:9-20 | that order relates any two different strings |
| Text.LessTransitive | packages/typescript/control/src/portable.ts:9-20 | it is transitive |
| Text.LessAsymmetric | packages/typescript/control/src/portable.ts:9-20 | it never holds both ways |
| PortableJsonProofs.RoundTrip | packages/python/prodkit-control-core/src/prodkit_control_core/canonical.py:62-90 | every encoded text parses back to the value with its members in key order, for any nesting |
| PortableJsonProofs.CanonIsEquivalent | packages/python/prodkit-control-core/src/prodkit_control_core/canonical.py:81-88 | which is the same value up to member order |
| PortableJsonProofs.ParseEncoded | packages/python/prodkit-control-core/src/prodkit_control_core/canonical.py:62-90 | the parser stops exactly where the encoding of a value ends, whatever follows that is no digit |
| PortableJsonProofs.ParseEscaped | packages/python/prodkit-control-core/src/prodkit_control_core/canonical.py:69-70 | every escaped string (section 7 of RFC 8259) reads back, up to its closing quote |
| PortableJsonProofs.ParseEncodedInt | packages/python/prodkit-control-core/src/prodkit_control_core/canonical.py:71-76 | every encoded integer reads back, sign and end included |
| PortableJsonProofs.SortAscending | packages/python/prodkit-control-core/src/prodkit_control_core/canonical.py:81-88 | distinct keys are written in strictly ascending code point order |
| PortableJsonProofs.CanonDetermines | packages/python/prodkit-control-core/src/prodkit_control_core/canonical.py:62-90 | a value is determined, up to member order, by its canonical form |
| PortableJsonProofs.EquivalentEncodeAlike | packages/typescript/control/src/portable.ts:29-48 | values that differ only in insertion order encode alike, errors included |
| PortableJsonProofs.TextDeterminesValue | packages/python/prodkit-control-core/src/prodkit_control_core/canonical.py:62-90 | two values have the same text exactly when they are the same up to member order |
| PortableJsonProofs.EncodesExactlyTheProfile | packages/python/prodkit-control-core/src/prodkit_control_core/canonical.py:62-90 | a value encodes exactly when it is in the profile at every depth: safe integers, string keys, no floats or foreign types |
| PortableJsonVectors.ObjectOrderVector | contracts/conformance/canonicalization-v1.json:6-18 | the first conformance vector: fields in code point order, at both depths, without spaces |
| PortableJsonVectors.UnicodeVector | contracts/conformance/canonicalization-v1.json:19-27 | the second: an array, and text as it is |
| PortableJsonVectors.EscapedVector | contracts/conformance/canonicalization-v1.json:28-37 | the third: a quote, a backslash and a line feed behind backslashes |
| PortableJsonVectors.ControlEscapes | packages/python/prodkit-control-core/src/prodkit_control_core/canonical.py:62-70 | the other escapes, and what is not escaped |
| PortableJsonVectors.NegativeVector | packages/python/prodkit-control-core/src/prodkit_control_core/canonical.py:71-76 | a negative integer in decimal |
| PortableJsonVectors.RejectionVectors | contracts/conformance/canonicalization-v1.json:39-52 | the rejection vectors: integers one past the safe range, and a binary float |
| Ledger.InMemoryEventLedger.AppendEvent | packages/python/prodkit-control-runtime/src/prodkit_control_runtime/memory.py:36-58 | appends the next event of the run's chain, or refuses exactly when another tenant has events under the run id; the ledger stays sound |
| Ledger.InMemoryEventLedger.VerifyEvents | packages/python/prodkit-control-runtime/src/prodkit_control_runtime/memory.py:69-96 | accepts exactly the lists that are numbered 1..n, of one tenant, and each hashed onto its predecessor |
| Ledger.AppendKeepsSound | packages/python/prodkit-control-runtime/src/prodkit_control_runtime/memory.py:36-58 | append keeps every run verified and every run id with one tenant |
| Ledger.ReachableIsSound | packages/python/prodkit-control-runtime/src/prodkit_control_runtime/memory.py:36-96 | so every ledger appends can reach passes verification, run by run |
| Ledger.TipPinsHistory | packages/python/prodkit-control-runtime/src/prodkit_control_runtime/memory.py:69-96 | two chains with the same final hash have the same length and were hashed from the same material link by link, unless two of their links collide |
| Ledger.RunsWithOneTip | packages/python/prodkit-control-runtime/src/prodkit_control_runtime/memory.py:69-96 | two verified runs with one final hash hold the same events |
| Ledger.SameMaterialMeans | packages/python/prodkit-control-runtime/src/prodkit_control_runtime/memory.py:43-56 | equal material means equal tenant, run, type and number, and equal details: the same names, and equal values under each |
| Ledger.AppendedExactlyWhen | packages/python/prodkit-control-runtime/src/prodkit_control_runtime/memory.py:36-58 | a draft becomes the next event of its run exactly when no other tenant has events there; nothing else changes |
| Bundles.ValidateEvents | packages/python/prodkit-control-runtime/src/prodkit_control_runtime/bundles.py:219-282 | returns a tenant exactly when the lines form that tenant's chain for the manifest's run, with the manifest's count, final hash and counts by type |
| Bundles.Verify | packages/python/prodkit-control-runtime/src/prodkit_control_runtime/bundles.py:93-115 | accepts exactly the archives whose manifest, events, tenant and lineage all check |
| BundleProofs.Build | packages/python/prodkit-control-runtime/src/prodkit_control_runtime/bundles.py:43-90 | a run appended event by event always exports, unless it is empty or the lineage belongs elsewhere; the archive is accepted and its tip is the run's |
| BundleProofs.ExportIsAccepted | packages/python/prodkit-control-runtime/src/prodkit_control_runtime/bundles.py:43-90 | the archive built from any verified run is accepted for the run's tenant |
| BundleProofs.ExportedLineOk | packages/python/prodkit-control-runtime/src/prodkit_control_runtime/bundles.py:235-276 | an event written as a line of text and read back passes every check of its line |
| BundleProofs.CountMembersMatch | packages/python/prodkit-control-runtime/src/prodkit_control_runtime/projectors.py:20-35 | the exported counts by type are the counts the verifier recomputes, and add up to the number of events |
| BundleProofs.BundlesWithOneTip | packages/python/prodkit-control-runtime/src/prodkit_control_runtime/bundles.py:233-282 | two accepted bundles with the same final hash hold the same events |
| BundleProofs.BundleMatchesRun | packages/python/prodkit-control-runtime/src/prodkit_control_runtime/bundles.py:233-282 | an accepted bundle that ends on a run's tip holds that run's events, no more and no fewer |
| BundleMeaning.AcceptedExactlyWhen | packages/python/prodkit-control-runtime/src/prodkit_control_runtime/bundles.py:93-282 | an archive is accepted for a tenant exactly when it attests one run of it: lines numbered from 1 and chained by their recorded hashes, the manifest's names, run, tenant, file hashes, final hash, and counts that are the numbers of events of each type, and the lineage's run, tenant, hash and sizes |
| BundleMeaning.CountsAre | packages/python/prodkit-control-runtime/src/prodkit_control_runtime/bundles.py:265-282 | the recomputed counts are the numbers of occurrences of just the types that occur |
| RecoverySafety.StepKeepsInv | packages/python/prodkit-control-postgres/src/prodkit_control_postgres/recovery.py:84-865 | every transaction keeps the tables in step with the history, and the recovery rows of a restore from a single commit |
| RecoverySafety.PromotionIsABarrier | packages/python/prodkit-control-postgres/src/prodkit_control_postgres/recovery.py:729-826 | before every promotion of any run: a verified scan of that restore, its gap closed without unresolved effects, a plan whose grant was not revoked, and a commit of resolved records for every attempt uncertain by then |
| RecoverySafety.CompletedOnce | packages/python/prodkit-control-postgres/src/prodkit_control_postgres/recovery.py:827-846 | a restore is completed once, so a degraded or failed one is never promoted later |
| RecoverySafety.CommitsAgree | packages/python/prodkit-control-postgres/src/prodkit_control_postgres/recovery.py:585-634 | two non-empty commits for one restore are one commit |
| RecoverySafety.LateUncertaintyBars | packages/python/prodkit-control-postgres/src/prodkit_control_postgres/recovery.py:585-634 | over whole histories: an attempt that becomes uncertain after records were committed for a restore bars that restore from ever being promoted |
| PromotionReach.PromotableExactlyWhen | packages/python/prodkit-control-postgres/src/prodkit_control_postgres/recovery.py:252-865 | from every reachable state, some continuation promotes a restore exactly when it was promoted, or it has no result and, if planned: its grant is live and covers what is missing, its profile is in force with RPO and RTO not missed, its committed records, if any, are for exactly the uncertain attempts and leave none open, and its gap, if closed, has no unresolved effects; an unplanned restore always can be, by a new profile, a grant issued under it to someone other than its approver, a backup and a plan |
| PromotionReach.LateUncertaintyExample | packages/python/prodkit-control-postgres/src/prodkit_control_postgres/recovery.py:252-865 | a run that commits records, then sees another attempt become uncertain, and completes degraded with everything else in order |
| PromotionReach.StepNoBetter | packages/python/prodkit-control-postgres/src/prodkit_control_postgres/recovery.py:84-865 | no operation clears what is in the way of a promotion |
| PromotionTargets.CompletionDecides | packages/python/prodkit-control-postgres/src/prodkit_control_postgres/recovery.py:729-846 | in the completing step itself: the grant is live, of this operator and capability; plan, backup and profile in force are of one revision; and the result is promoted exactly when the scan verified, the gap closed with zero unresolved effects, the uncertain attempts are exactly those recovered and none is open, and RPO and RTO are met |
| PromotionTargets.ActiveIsInForce | packages/python/prodkit-control-postgres/src/prodkit_control_postgres/recovery.py:1107-1127 | the active profile is the effective one of the highest revision, and there is none only when none is effective |
| PromotionTargets.StepKeepsPlans | packages/python/prodkit-control-postgres/src/prodkit_control_postgres/recovery.py:385-460 | every plan's backup stays the one taken under the plan's profile revision |
| PromotionWindow.CompletedWithinTheHour | packages/python/prodkit-control-postgres/src/prodkit_control_postgres/recovery.py:252-302 | in every run a restore is completed, promotion included, less than an hour after its plan: profiles bound the lifetime of grants, and each use of the plan's grant checks its expiry |
| PromotionWindow.OldPlansAreDead | packages/python/prodkit-control-postgres/src/prodkit_control_postgres/recovery.py:264-269 | from every reachable state, no continuation promotes a restore that was planned an hour ago and has no result |
| RecoveryEvents.FactsExactlyMade | packages/python/prodkit-control-postgres/src/prodkit_control_postgres/recovery.py:84-648 | over every run a profile, backup, grant, revocation, plan, scan, gap, uncertain attempt or set of recovery rows is in its table exactly when an event made it, in the state it met: every guard on the way in, and nothing dropped or altered |
| RecoveryEvents.PromotedExactlyWhen | packages/python/prodkit-control-postgres/src/prodkit_control_postgres/recovery.py:729-826 | over the events: a completion promotes exactly when its scan was recorded as verified, its gap as without unresolved effects, the rows observed and committed resolve just the attempts that became uncertain, and the plan's objectives are met |
| BreakGlass.LiveExactlyWhen | packages/python/prodkit-control-postgres/src/prodkit_control_postgres/recovery.py:1009-1040 | a use of a grant is admitted exactly when an event issued it to this actor with this capability, its time is not over, and no revocation has named it since |
| BreakGlass.RevocationIsFinal | packages/python/prodkit-control-postgres/src/prodkit_control_postgres/recovery.py:318-362 | once a revocation names an issued grant, no continuation plans a restore under it, or scans, closes, reconciles or completes one planned under it |
| BreakGlass.RevokedCannotPromote | packages/python/prodkit-control-postgres/src/prodkit_control_postgres/recovery.py:318-362 | so a restore without a result whose grant is revoked can no longer be promoted |
| RecoveryStore.PostgresRecoveryStore.RevokeBreakGlass | packages/python/prodkit-control-postgres/src/prodkit_control_postgres/recovery.py:318-362 | ties the transaction to the specification step |
| RecoveryStore.PostgresRecoveryStore.CommitReconciliation | packages/python/prodkit-control-postgres/src/prodkit_control_postgres/recovery.py:585-648 | the second transaction, row by row and rolled back on a duplicate, is the specification step |
| RecoveryStore.PostgresRecoveryStore.CompleteRestoreOf | packages/python/prodkit-control-postgres/src/prodkit_control_postgres/recovery.py:729-865 | the transaction is the specification step; a result is new and stored, and a refusal changes nothing |
| RecoveryStore.VerifyRestored | packages/python/prodkit-control-runtime/src/prodkit_control_runtime/recovery.py:60-224 | a scan is verified exactly when observed and manifest digest maps are equal and chain tip, trust anchor and checkpoint all check, which is exactly when it has no findings |
| RecoveryStore.CompareComponents | packages/python/prodkit-control-runtime/src/prodkit_control_runtime/recovery.py:72-115 | no finding exactly when the two digest maps are equal; lists exactly the intact components |
| Governance.InMemoryGovernanceStore.ProposeChange | packages/python/prodkit-control-runtime/src/prodkit_control_runtime/governance.py:77-122 | ties the call to the specification step |
| Governance.InMemoryGovernanceStore.ApproveChange | packages/python/prodkit-control-runtime/src/prodkit_control_runtime/governance.py:124-182 | ties the call to the specification step: independence of a HIGH or CRITICAL approval included |
| Governance.InMemoryGovernanceStore.ApplyRetentionPolicy | packages/python/prodkit-control-runtime/src/prodkit_control_runtime/governance.py:184-230 | ties the call to the specification step |
| Governance.InMemoryGovernanceStore.PlaceLegalHold | packages/python/prodkit-control-runtime/src/prodkit_control_runtime/governance.py:243-271 | ties the call to the specification step |
| Governance.InMemoryGovernanceStore.ReleaseLegalHold | packages/python/prodkit-control-runtime/src/prodkit_control_runtime/governance.py:299-347 | ties the call to the specification step |
| Governance.InMemoryGovernanceStore.BootstrapTrustRoot | packages/python/prodkit-control-runtime/src/prodkit_control_runtime/governance.py:451-499 | ties the call to the specification step |
| Governance.InMemoryGovernanceStore.RotateTrustRoot | packages/python/prodkit-control-runtime/src/prodkit_control_runtime/governance.py:501-563 | ties the call to the specification step |
| Governance.InMemoryGovernanceStore.Apply | packages/python/prodkit-control-runtime/src/prodkit_control_runtime/governance.py:871-881 | marks the request applied and records what it was applied to |
| GovernanceSafety.StepKeepsInv | packages/python/prodkit-control-runtime/src/prodkit_control_runtime/governance.py:77-563 | every operation keeps governed state, requests and audit records in correspondence |
| GovernanceSafety.PoliciesAreBacked | packages/python/prodkit-control-runtime/src/prodkit_control_runtime/governance.py:184-230 | in every reachable store retention policies have revisions 1..n, each backed by an applied request of its own for that target and digest, approved against its predecessor, and by someone else where HIGH or CRITICAL |
| GovernanceSafety.RootsAreBacked | packages/python/prodkit-control-runtime/src/prodkit_control_runtime/governance.py:451-563 | the same for trust roots; every root but the last has a retirement time |
| GovernanceSafety.ReleasesAreBacked | packages/python/prodkit-control-runtime/src/prodkit_control_runtime/governance.py:299-347 | a released hold is backed by an applied request of its own |
| GovernanceSafety.AppliedTookEffect | packages/python/prodkit-control-runtime/src/prodkit_control_runtime/governance.py:848-881 | conversely every applied request took effect as exactly the policy, root or release it was for |
| GovernanceSafety.RequestsMoveLegally | packages/python/prodkit-control-runtime/src/prodkit_control_runtime/governance.py:124-182 | every operation moves every request along proposed, then approved or rejected, then applied, and never rewrites the proposal |
| GovernanceSafety.RetirementFollowsActivationWhen | packages/python/prodkit-control-runtime/src/prodkit_control_runtime/governance.py:530-540 | a rotation retires the current root after its own activation exactly when the overlap ends after that activation |
| GovernanceSafety.RootsRetireLateWhen | packages/python/prodkit-control-runtime/src/prodkit_control_runtime/governance.py:501-563 | after any run every retired root outlasted its activation exactly when every rotation the run accepted had an overlap that ends after the activation of the root it retired |
| GovernanceSafety.RetirementCanPrecedeActivation | packages/python/prodkit-control-runtime/src/prodkit_control_runtime/governance.py:530-540 | a reachable store and a plan that meets its own ordering rule, which retires a root before that root's activation |
| GovernanceEvents.FactsExactlyMade | packages/python/prodkit-control-runtime/src/prodkit_control_runtime/governance.py:77-563 | over every run a proposal, approval, rejection, application, policy, hold, release, root, retirement or audit entry is there exactly when an event made it, in the state it met |
| GovernanceEvents.ApprovedWasDecided | packages/python/prodkit-control-runtime/src/prodkit_control_runtime/governance.py:124-182 | a request that is approved or applied was proposed by an event as it stands and then approved by an event of just the actor it names, another one where the risk is high or critical |
| GovernanceEvents.DecisionsAreFinal | packages/python/prodkit-control-runtime/src/prodkit_control_runtime/governance.py:124-182 | an admissible decision takes effect at once and for good: approving approves, rejecting rejects, and a rejected request is never applied |
| GovernanceEvents.PolicyWasDecided | packages/python/prodkit-control-runtime/src/prodkit_control_runtime/governance.py:184-230 | every policy came in by an event, under a request proposed for it, against its predecessor, and approved before |
| GovernanceEvents.ReleaseWasDecided | packages/python/prodkit-control-runtime/src/prodkit_control_runtime/governance.py:299-347 | every released hold was released by an event of the actor it names, under such a request |
| GovernanceEvents.RootWasDecided | packages/python/prodkit-control-runtime/src/prodkit_control_runtime/governance.py:451-563 | every trust root came from a bootstrap or a rotation, under such a request |
| Lineage.InMemoryLineageStore.Record | packages/python/prodkit-control-runtime/src/prodkit_control_runtime/lineage.py:46-57 | ties record_node to the specification step; every graph stays valid |
| Lineage.InMemoryLineageStore.Relate | packages/python/prodkit-control-runtime/src/prodkit_control_runtime/lineage.py:59-74 | ties record_relation to the specification step; every graph stays valid |
| Lineage.RelationAcceptedWhen | packages/python/prodkit-control-runtime/src/prodkit_control_runtime/lineage.py:59-74 | a relation is accepted exactly when it is recorded already, or fits existing nodes of the allowed kinds and duplicates no link |
| Lineage.NoCycle | packages/python/prodkit-control-core/src/prodkit_control_core/contracts/lineage.py:178-269 | a walk along allowed relations never returns to its start, so the acyclicity check cannot fire |
| Lineage.AfterGrows | packages/python/prodkit-control-runtime/src/prodkit_control_runtime/lineage.py:46-74 | whatever is recorded, graphs stay valid, no node is rewritten and relations are only appended |
| Lineage.AfterOneTenant | packages/python/prodkit-control-runtime/src/prodkit_control_runtime/lineage.py:46-57 | no run id ever has nodes under two tenants |
| Lineage.NodeAcceptedWhen | packages/python/prodkit-control-runtime/src/prodkit_control_runtime/lineage.py:46-57 | a node is accepted, and recorded, exactly when its run has no node of another tenant and its id none of another content |
| Lineage.AcceptedIsRecorded | packages/python/prodkit-control-runtime/src/prodkit_control_runtime/lineage.py:59-74 | an accepted relation is recorded after those before it; a refused one changes nothing |
| LineageAssessment.FindSubject | packages/python/prodkit-control-runtime/src/prodkit_control_runtime/lineage.py:302-321 | returns the first candidate with a positive verdict, or else the first candidate |
| LineageAssessment.FindTarget | packages/python/prodkit-control-runtime/src/prodkit_control_runtime/lineage.py:323-342 | the same, following relations forward |
| LineageAssessment.AssessObservation | packages/python/prodkit-control-runtime/src/prodkit_control_runtime/lineage.py:102-279 | the sequence of searches and marks is the assessment function |
| LineageAssessment.CompleteIsSound | packages/python/prodkit-control-runtime/src/prodkit_control_runtime/lineage.py:102-279 | a complete assessment exhibits a full chain of the right kinds, positive verdicts and recorded links, from specification and decisions to the matched reconciliation of this observation |
| LineageAssessment.CompleteIsStable | packages/python/prodkit-control-runtime/src/prodkit_control_runtime/lineage.py:46-279 | whatever is recorded afterwards, in this run or another, a complete assessment stays the same, path included |
| LineageCompleteness.ChosenExactlyFirst | packages/python/prodkit-control-runtime/src/prodkit_control_runtime/lineage.py:302-342 | each search takes a candidate that passes exactly when it is the first recorded that does |
| LineageCompleteness.CompleteExactlyWhen | packages/python/prodkit-control-runtime/src/prodkit_control_runtime/lineage.py:102-279 | an observation is complete exactly when the first candidates at each step make a chain, which is then the path |
| LineageCompleteness.CompleteWhenUnambiguous | packages/python/prodkit-control-runtime/src/prodkit_control_runtime/lineage.py:102-279 | where no step has a choice: exactly when a full chain to the observation is recorded |
| LineageCompleteness.ChainCanBeMissed | packages/python/prodkit-control-runtime/src/prodkit_control_runtime/lineage.py:302-321 | with a choice a recorded chain can be missed: an earlier deployment that succeeded, but that no action led to, hides one through a later |
| LineageCompleteness.MissedExample | packages/python/prodkit-control-runtime/src/prodkit_control_runtime/lineage.py:302-321 | a valid graph with a full chain that is assessed as incomplete |
| PolicySemantics.DefaultPolicyIsMonotone | packages/python/prodkit-control-runtime/src/prodkit_control_runtime/policy_semantics.py:27-55 | a graver effect or a higher risk never gets a milder outcome |
| PolicySemantics.DefaultPolicyIs | packages/python/prodkit-control-runtime/src/prodkit_control_runtime/policy_semantics.py:27-55 | denied exactly for a privileged effect at critical risk; allowed exactly for a read at low or medium risk; otherwise the approval of `production_approver` |
| PolicySemantics.SortedUniqueIs | packages/python/prodkit-control-runtime/src/prodkit_control_runtime/policy_semantics.py:75-77 | the role list is ascending and has exactly the given names |
| PolicyProofs.OutcomeIs | packages/python/prodkit-control-runtime/src/prodkit_control_runtime/policy_semantics.py:58-96 | deny exactly when some decision denies or two disagree on a constraint key, otherwise the maximum rank |
| PolicyProofs.RolesAre | packages/python/prodkit-control-runtime/src/prodkit_control_runtime/policy_semantics.py:58-96 | the roles are the ordered union of the required roles |
| PolicyProofs.ReasonsAre | packages/python/prodkit-control-runtime/src/prodkit_control_runtime/policy_semantics.py:58-96 | the reasons are those of the decisions, each under its engine, one for each key they disagree on, or one that says there is none |
| PolicyProofs.MoreNeverWeakens | packages/python/prodkit-control-runtime/src/prodkit_control_runtime/policy_semantics.py:58-96 | more decisions, wherever inserted, never lower the rank or drop a role |
| PolicyProofs.OrderIsIrrelevant | packages/python/prodkit-control-runtime/src/prodkit_control_runtime/policy_semantics.py:58-96 | outcome and roles depend on the set of decisions only |
| PolicyProofs.PermutationIsIrrelevant | packages/python/prodkit-control-runtime/src/prodkit_control_runtime/policy_semantics.py:58-96 | in particular they are invariant under permutation |
| PolicyProofs.GroupingIsIrrelevant | packages/python/prodkit-control-runtime/src/prodkit_control_runtime/policy_semantics.py:58-96 | composing groups and then the results gives the outcome and roles of composing everything at once |
| PolicyProofs.CombinePython | packages/python/prodkit-control-runtime/src/prodkit_control_runtime/policy_semantics.py:58-96 | the comprehensions and the constraint loop compute the composition, for any order of dictionary keys |
| PolicyRuntimes.CombineTypeScript | packages/typescript/control/src/portable.ts:106-148 | the single loop, over a JavaScript record, computes the composition of the decisions with the constraints that reach the record: those under `__proto__` are dropped until one is null, and numbers compare as doubles, an integer past their range as an infinity |
| PolicyRuntimes.RuntimesDifferWhen | packages/typescript/control/src/portable.ts:120-138 | the runtimes' outcomes differ exactly when no decision denies, and either Python sees no conflict and a key that reaches the record mixes a truth value with its number, or every conflict Python sees is over a value the record ignored or between numbers that are one double (two integers that round alike, or an infinity and an integer that overflows to it), and no key is mixed |
| PolicyRuntimes.RuntimesAgreeUnlessMixed | packages/python/prodkit-control-runtime/src/prodkit_control_runtime/policy_semantics.py:79-88 | with safe integers (infinities and fractions at will) and no key `__proto__`: differ exactly when a key mixes a truth value with its number, none denies and Python sees no other conflict |
| PolicyRuntimes.MixedExample | packages/typescript/control/src/portable.ts:126-138 | `true` and 1 under one key: allow in Python, deny in TypeScript |
| PolicyRuntimes.IgnoredExample | packages/typescript/control/src/portable.ts:126-132 | 1 and 2 under `__proto__`: deny in Python, allow in TypeScript |
| PolicyRuntimes.RoundedExample | packages/typescript/control/src/portable.ts:126-132 | two integers past the safe range: deny in Python, allow in TypeScript |
| PolicyRuntimes.OverflowExample | packages/typescript/control/src/portable.ts:126-132 | an infinity (as read from `1e400`) and a power of two from 2 to the 1024th on: deny in Python, allow in TypeScript |
| PolicyRuntimes.SafeNumbersAreExact | packages/typescript/control/src/portable.ts:126-132 | integers below 2 to the 53rd are held exactly |
| PolicyOrdering.TypeScriptOrderMattersWhen | packages/typescript/control/src/portable.ts:120-138 | some permutation changes the TypeScript outcome exactly when none denies, no ordinary key conflicts, and one decision gives null under `__proto__` where two others differ |
| PolicyOrdering.TypeScriptGroupingMattersWhen | packages/typescript/control/src/portable.ts:120-138 | composing groups and then the results changes the TypeScript outcome exactly when none denies, no ordinary key conflicts, no group has two decisions that differ under `__proto__` after a null of its own, the decisions in a row do, and no group that hands on null (sets null there, and a later decision of it gives null again) comes before two groups that hand on differing values |
| PolicyOrdering.GroupingOnlyWeakens | packages/typescript/control/src/portable.ts:120-138 | composing groups first never makes the TypeScript outcome stricter, and where it changes it, all at once deny |
| PolicyOrdering.TypeScriptNeverWeakens | packages/typescript/control/src/portable.ts:120-138 | putting one more decision in, anywhere, never gives TypeScript a milder outcome |
| PolicyOrdering.OrderExample | packages/typescript/control/src/portable.ts:120-138 | null, 1 and 2 under `__proto__`: deny in this order, allow with the null last |
| PolicyOrdering.GroupingExample | packages/typescript/control/src/portable.ts:120-138 | the same decisions, grouped with the null alone: allow, where all at once deny |

## Left out

- Float arithmetic: the limiter's clock is modelled in whole milliseconds, recovery objectives likewise, and the retry hint's rounding of binary floats is not captured.
- Heap layout: `heapq` is modelled by its contents in order of expiry; which of two entries with equal expiry is popped first is left to the order of insertion, where Python compares the keys.
- Retry hint when `max_keys` is reached: only its value is stated, not that it suffices, which the code does not promise.
- PortableJson: lone surrogates are not characters of the model, foreign objects are one value that fails to encode, and the separate `canonical_json_bytes` encoding, which is not injective, is not modelled beyond the values both encode alike.
- Floats as JSON values: a float is its real value, so negative zero is not told from zero; infinities (which `1e400` is read as) and NaN are not values of the model.
- RateLimiter.SlidingWindowRateLimiter.Check: the clock is read before the lock is taken, so two threads can enter with their readings in the other order; the model asks that readings do not run backwards.
- Ledger.Append: timestamps, actor and trace fields are part of an event's `details`; the signature fields of the integrity record are not modelled.
- Bundles.Verify: zip reading, member size limits and UTF-8 decoding; lines are given as parsed JSON. A sequence of `true` or `1.0` is accepted for 1, because Python's equality accepts it.
- BundleProofs.Build: lines with floats or integers past the portable range are taken to read back as written; for all others the text is written and parsed. The manifest is given as read back.
- Attestations, artifact encryption, base64 and file access.
- Field validation of the Pydantic contracts, apart from the graph, rule and hold logic cited above.
- BrokerAuthorization.StartsAreAuthorized: that an approval covers the action is the approval store's answer; its expiry and scope check (`ApprovalDecision.authorizes`) is not modelled.
- BrokerOutcomes.AtMostOneEffect: a configuration with leases but no attempt journal calls plain `execute`, as the code does; that every issued credential lease is revoked is not claimed, since a digest conflict or an invalid result leaves without revoking.
- Error texts and finish times of attempt records.
- WorkRuns.RunConserves: new jobs have ids of their own (`Enabled`); what the in-memory store does with a reused id is `EnqueueConservesWhen`, and PostgreSQL's primary key, which refuses it, is not modelled.
- WorkStores.PostgresDurableWorkQueue.AcquireWork: one clock reading per call, where the source reads the clock each round, and no row locked elsewhere (`SKIP LOCKED` skips nothing).
- PostgreSQL lease store, and complete and retry of the PostgreSQL queue: the same rules as in memory, over rows.
- Capacity controller, runtime lifecycle, queue snapshots: guard checks that one reading settles.
- Retention.PostgresGovernanceStore.ReleaseLegalHold: the approved change request is a boolean here; its rules are those modelled in `Governance`.
- Retention.PostgresGovernanceStore.ApplyRetentionPolicy: the same.
- Single-phase retention of the in-memory governance store: it decides and deletes under one lock, so the two-phase protocol is the harder form.
- Tenancy modes, permission checks, support grants, tenant profiles and evidence transfer: one tenant's rows are modelled.
- Governance.InMemoryGovernanceStore.ProposeChange: reasons, display names and the text of audit records.
- Recovery.Step: profiles keep their objectives and the longest grant, backups a profile revision and a recovery point; component lists, backup intervals, creation times, game days and audit rows are not modelled.
- RecoveryStore.PostgresRecoveryStore.CompleteRestoreOf: attempts may become uncertain without the recovery lock, so the transaction is placed at its read of the uncertain attempts.
- PolicyRuntimes.RuntimesDifferWhen: NaN as a constraint value, which equals nothing in either runtime, itself included, and what a caller does with the composed record's prototype.
- PromotionReach.PromotableExactlyWhen: a continuation may publish profiles (the next revision), issue grants (under an active profile, for 60 seconds up to what it allows, to someone other than the approver) and record backups (of the active profile, within its RPO); the tenant capabilities that `_require_tenant` asks of the callers are not modelled.
- Reconciliation engine, run coordination, transfers, HTTP API, CLI, web packages, SQL text and migrations.
- Liveness that depends on the scheduler's fairness.
