# Proofs about the Proxcloud backend

A Dafny model of the stateful parts of the Go backend, and proofs about it. Each module follows
one source file or one protocol. Code that changes things step by step is a class or a method with
loops, proved against a specification; the theorems about whole runs are lemmas over those
specifications. `dafny verify dfyconfig.toml` checks everything.

| module | models | main results |
|---|---|---|
| `Lockout`, `LoginLimiting`, `LockoutRuns`, `PasswordRate` | the account lockout tracker and the login limiter on top of it | n second-factor attempts take at least 12 min · (n − 10); with c requests in flight, n password failures take at least 15 min · (n − 7 − c) / c, and the rate of one request at a time holds if and only if c ≤ 1; a flood of other keys never removes a locked entry; the wrapping 64-bit shift is the capped doubling |
| `IpWindow`, `ApiLimiter`, `Crowd` | the per-IP sliding log, compacted in place, and the fixed-window API limiter | both refine a rule over the full history; 5 admissions in any stretch shorter than ℓ, and twice the limit in any closed interval ℓ long, hold of all runs if and only if ℓ ≤ a window less twice the clock skew; so the rules as promised hold if and only if the clock is read in lock order |
| `Engine`, `EngineCalls` | one deployment run | every run ends once and settles its reservation once, for every sequence of answers; it only goes forward, asks for the guest and its start at most once and exactly when due; the step list keeps its shape at every moment and tells the truth at the end |
| `DeploySet`, `CreateHandlers` | provisioning a set, and the handlers that reserve and compensate | the order is the one stable sort; agents wait until every server was seen to succeed; carrying out the orchestrator's and the engine's own calls settles every reserved row exactly once |
| `Dispatch`, `Jobs` | the scheduler tick, and one job row under overlapping workers | the i-th job starts by ⌊i/m⌋ · H; no job is reclaimed if and only if every batch fits in the stale limit; a success is for good; dead-letter exactly after the maximum of failures in a row, and only after every backoff, unless it is bumped or reclaimed under a call in flight |
| `LoginProtocol`, `LoginFactors`, `LoginTries` | Login and LoginTOTP, interleaved step by step | a password alone is enough only while the second factor is off, and every other session proves both; a challenge or a recovery code backs at most one session, and five failures close a challenge; each session follows a counted attempt, a valid factor and a won consume; n codes tried for a user put the clock 12 min · (n − 10) past the first counted attempt |
| `RecoveryCodes` | normalising a typed recovery code | a typed code matches only the code it was generated as, in any case, spacing or look-alike |
| `Broker` | the event broker, sequentially and interleaved | each buffer is the newest stretch of what was published; publishing never waits; nothing is sent on a closed channel |
| `TtlExpiry` | firing a TTL | an error exactly when the job is to be retried; no touch without an audit intent, no destroy unless due and stopped, no tombstone without a confirmed destroy |
| `Materialize`, `JobTimes`, `Cron` | projecting TTLs and schedules into jobs, and their cron lines | a rewrite leaves exactly the jobs called for, touches nothing else, is idempotent and commutes; each job fires at its own time, the warning 15 minutes before the stop in every week; an opted-out guest has none |
| `PveOptions`, `Text`, `Decimal`, `Counting`, `Wrappers` | the Proxmox option strings, composed and parsed | composed strings parse back to the request, with no other option |
| `Sessions`, `Slugs` | session expiry; slugs | steady use is accepted to the absolute expiry and expiry is for good, also when touches land late and out of order and rows are read early, and the idle TTL this needs is exact; the slug search ends within one more candidate than there are taken slugs |

Assumed about the rest of the system: the store's updates are the guarded single statements of
`backend/internal/store`, each one atomic; a transaction applies whole or not at all; a task wait
ends in a success, a failure or a timeout. Outside answers are parameters over which every theorem
quantifies. Clocks do not go back; where the source reads the clock before it takes the lock (the
two window limiters), the instants in lock order may still go back by a bounded skew. Instants are
nanoseconds. Lockout keys are digests or user ids, so never empty.

## Where the code differs from its comments

- The per-IP `Allow` is commented as a fixed window; it is a sliding log, and is modelled as one.
- `AllowAccount` and `RecordFailure` are two separate calls, on either side of the hashing
  semaphore. On all runs with at most c requests of an email between the two, 15 min · (n − 8) for n
  failures is guaranteed if and only if c ≤ 1 (`PasswordRate.BoundHoldsIffOneInFlight`): with two at a
  time, ten failures fit in ten minutes (`PasswordRate.PairsBreakTheBound`). What holds for every c is
  15 min · (n − 7 − c) ≤ c · T (`PasswordRate.PasswordFailuresAreRationed`).
- The per-IP limiter and the API limiter read the clock before they take their mutex, so instants may
  reach the lock up to `skew` out of order. Five a minute per address then holds of all runs if and
  only if skew = 0 (`IpWindow.FiveAMinuteHoldsIffInLockOrder`). What holds for every skew is five in
  every stretch shorter than a minute less the skew, and less it once more if idle logs are swept,
  and no longer stretch will do (`IpWindow.FiveHoldsExactlyWhen`): the factor two is tight, since a
  sweep at the last logged instant plus a minute lets nine through in a minute less twice the skew
  (`IpWindow.SweptRunAdmitsNine`).
- In the same way twice the limit per closed window holds of all runs of the API limiter, for a limit
  of two or more, if and only if skew = 0; a limit of one also bears a skew below half a window
  (`ApiLimiter.TwiceAWindowHoldsIff`). From a limit of three on, and the limit is 600, a closed
  interval is safe if and only if it is at most a window less twice the skew long
  (`ApiLimiter.TwiceHoldsExactlyWhen`).
- The scheduler's comment says a handler timeout below the stale limit is enough for a running
  handler never to be reclaimed. Time spent waiting for a slot counts too, so it is enough if and only
  if all batches of a claim fit (`Dispatch.NeverReclaimsIff`). The defaults meet that for claims of
  at most 8 jobs, while a tick claims up to 20 (`Dispatch.DefaultsNeverReclaimIff`).
- A failed run removes the snippet it wrote only if the snippet has a file name
  (`Engine.EveryRunBalances`).
- A member's await can end before its run does, so set results are stated on the status observed.
- `Sessions.Live` and `Verify` differ on the instant of a deadline (`Sessions.LiveImpliesInTime`).
- `parseHHMM` is commented as strict, and accepts signed and unpadded numbers such as "+9:5" and
  "-0:5"; `Cron.ParseAcceptsExactly` says exactly what it takes.
- Without a task registry a destroy counts as confirmed once it is accepted.

## Model

| member | source | states |
|---|---|---|
| `Decimal.AtoiReadsItoa` | backend/internal/lifecycle/cron.go:15-41 | a number printed in decimal reads back as itself |
| `Decimal.ItoaIsInjective` | backend/internal/handlers/projects.go:246-251 | distinct counters give distinct suffixes |
| `Lockout.FailureTracker.Get` | backend/internal/auth/ratelimit.go:141-152 | the live entry of a key, or none; an expired one is dropped |
| `Lockout.FailureTracker.Locked` | backend/internal/auth/ratelimit.go:155-158 | true exactly while the key's lock runs |
| `Lockout.FailureTracker.CanTrack` | backend/internal/auth/ratelimit.go:162-164 | false only when the key is new and no room can be made; making room evicts only an unprotected entry that expires first |
| `Lockout.FailureTracker.Reset` | backend/internal/auth/ratelimit.go:167-170 | forgets the key in both maps and nothing else |
| `Lockout.FailureTracker.RecordFailure` | backend/internal/auth/ratelimit.go:176-208 | the state moves by exactly one counted failure, or one untracked one when the maps are full; the caps and the split between the two maps hold |
| `Lockout.FailureTracker.LockTime` | backend/internal/auth/ratelimit.go:191-199 | the clamped lock time of the wrapped shift |
| `Lockout.FailureTracker.PruneExpired` | backend/internal/auth/ratelimit.go:212-224 | at most every ten seconds, removes exactly the expired entries |
| `Lockout.FailureTracker.MakeRoom` | backend/internal/auth/ratelimit.go:231-250 | room for one more streak by evicting the unprotected entry of least expiry, or refusal when every entry is protected |
| `LockoutRuns.LockTimeIsCappedDoubling` | backend/internal/auth/ratelimit.go:30-33 | for every failure count the wrapping shift and clamp give min(1 min · 2^(failures − 5), 15 min): an overflow never shortens a lock |
| `LockoutRuns.OneFailureMore` | backend/internal/auth/ratelimit.go:186-207 | one failure more extends the streak, or starts it anew after two quiet hours; from the threshold on it locks for the lock time, not yet reported |
| `LockoutRuns.LocksAndStreaksEndOnTime` | backend/internal/auth/ratelimit.go:141-158 | a lock runs exactly for its lock time, and a streak is forgiven exactly two hours after its last failure |
| `LockoutRuns.LocksLeaveTheStreaks` | backend/internal/auth/ratelimit.go:200-207 | a key that reaches the threshold moves to the lock map while it has room and frees its streak's place |
| `LockoutRuns.PruningDropsTheOver` | backend/internal/auth/ratelimit.go:212-224 | a prune, at most every ten seconds, drops exactly the entries that are over |
| `LockoutRuns.EngagedMeansLocked` | backend/internal/auth/ratelimit.go:188-207 | a counted failure reports an engaged lock exactly when the key is locked after it |
| `LockoutRuns.StepEffect` | backend/internal/auth/ratelimit.go:137-250 | what one operation does to the view of any key, its own or another |
| `LockoutRuns.EveryReachableStateIsSound` | backend/internal/auth/ratelimit.go:137-250 | in every reachable state the two maps are disjoint, within their caps, and hold what belongs in them |
| `LockoutRuns.FloodCannotUnlock` | backend/internal/auth/ratelimit.go:133-138 | no run of operations on other keys changes the entry of a key at the threshold before it expires |
| `LockoutRuns.SecondFactorAttemptsAreRationed` | backend/internal/auth/ratelimit.go:344-358 | under every interleaving, n allowed second-factor attempts for one user span at least 12 min · (n − 10) |
| `PasswordRate.PasswordFailuresAreRationed` | backend/internal/auth/ratelimit.go:291-312 | for every c ≥ 1: with at most c requests for an email between check and failure, n failures spanning T satisfy 15 min · (n − 7 − c) ≤ c · T, across any number of decays |
| `PasswordRate.FailuresAreRationedByChecks` | backend/internal/auth/ratelimit.go:176-208 | the same whenever no more than c failures go by without a passed check |
| `PasswordRate.PasswordGuessesAreRationed` | backend/internal/auth/ratelimit.go:291-312 | n failures for one email, each after a check made since the last, span at least 15 min · (n − 8), across decays |
| `PasswordRate.BoundHoldsIffOneInFlight` | backend/internal/auth/handlers.go:212-253 | that bound holds on all runs with at most c requests in flight if and only if c ≤ 1 |
| `PasswordRate.PairsBreakTheBound` | backend/internal/auth/handlers.go:212-253 | a run with two requests in flight that counts ten failures in ten minutes |
| `PasswordRate.BurstKeepsTheBoundIffAtMostEight` | backend/internal/auth/ratelimit.go:291-312 | an example: n requests that all check before any fails, from an empty tracker, break that bound if and only if n > 8 |
| `LoginLimiting.LoginLimiter.AllowAccount` | backend/internal/auth/ratelimit.go:291-302 | refuses exactly a locked key, or a new one there is no room for, and says which |
| `LoginLimiting.LoginLimiter.RecordFailure` | backend/internal/auth/ratelimit.go:308-312 | counts one failure for the email's key, and leaves the second-factor tracker alone |
| `LoginLimiting.LoginLimiter.ResetAccount` | backend/internal/auth/ratelimit.go:317-321 | forgets the email's password failures only |
| `LoginLimiting.LoginLimiter.ReserveSecondFactorAttempt` | backend/internal/auth/ratelimit.go:344-358 | checks and counts in one step: allowed exactly when unlocked and trackable; the first refusal of a lock is flagged once |
| `LoginLimiting.LoginLimiter.ResetSecondFactor` | backend/internal/auth/ratelimit.go:368-372 | forgets the user's second-factor failures only |
| `IpWindow.Compact` | backend/internal/auth/ratelimit.go:389-394 | in-place compaction keeps exactly the instants in the window, in order |
| `IpWindow.IpLimiter.Allow` | backend/internal/auth/ratelimit.go:378-401 | admits exactly when fewer than five logged instants lie in the last minute, and logs the admission |
| `IpWindow.IpLimiter.MakeRoomForIP` | backend/internal/auth/ratelimit.go:408-426 | at most every ten seconds sweeps all idle addresses and only those; if still full, drops arbitrary ones only until there is room for one |
| `IpWindow.IpLimiter.Reset` | backend/internal/auth/ratelimit.go:429-433 | forgets one address |
| `IpWindow.AllowRefinesFullHistory` | backend/internal/auth/ratelimit.go:378-401 | a request is admitted if fewer than five of all its address's admissions lie in the last minute, and only if fewer than five lie in the last minute less the clock skew and the sweeps' slack; with both zero, if and only if |
| `IpWindow.NoStretchAdmitsMoreThanFive` | backend/internal/auth/ratelimit.go:378-401 | no stretch shorter than a minute less skew and slack holds more than five admissions |
| `IpWindow.SweepsCostTheSkew` | backend/internal/auth/ratelimit.go:408-418 | a sweep, which looks at the last admission only, drops none later than its cutoff by more than the skew |
| `IpWindow.NoMinuteAdmitsMoreThanFive` | backend/internal/auth/ratelimit.go:378-401 | unless reset or evicted for room, an address has at most five admissions in any stretch shorter than a minute less twice the clock skew |
| `IpWindow.FiveHoldsExactlyWhen` | backend/internal/auth/ratelimit.go:378-426 | for every skew, length and rule for dropping logs: five at most in every stretch shorter than the length, in all runs, if and only if the length is at most a minute less the skew and what dropping costs (nothing, the skew once more for sweeps, or a given slack), or nothing |
| `IpWindow.FiveAMinuteHoldsIffInLockOrder` | backend/internal/auth/ratelimit.go:378-384 | five a minute holds of all runs if and only if the skew is zero, with sweeps or without |
| `IpWindow.SweptRunAdmitsNine` | backend/internal/auth/ratelimit.go:408-418 | for every skew up to half a minute, a run with a sweep that admits nine in a minute less twice the skew |
| `IpWindow.SixAdmissionsSpanAMinute` | backend/internal/auth/ratelimit.go:378-401 | with clocks read in lock order, six admissions span at least a minute |
| `IpWindow.SkewedReadsAdmitSix` | backend/internal/auth/ratelimit.go:378-384 | for every skew, six admissions in a minute less the skew, from two clock reads that lock in the other order and with no log dropped; one second of skew gives six in 59 s |
| `ApiLimiter.ApiRateLimiter.Allow` | backend/internal/httpserver/ratelimit.go:117-136 | one step of the fixed-window counter, with eviction |
| `ApiLimiter.ApiRateLimiter.MakeRoom` | backend/internal/httpserver/ratelimit.go:143-162 | at most every ten seconds sweeps all expired buckets and only those; if still full, drops arbitrary ones only until there is room for one |
| `ApiLimiter.ApiRateLimiter.KeyFor` | backend/internal/httpserver/ratelimit.go:92-112 | a known session is limited by its user, anything else by its address |
| `ApiLimiter.ApiRateLimiter.RememberSession` | backend/internal/httpserver/ratelimit.go:168-181 | remembers one session within the cap |
| `ApiLimiter.AdmissionsAreWellSpaced` | backend/internal/httpserver/ratelimit.go:117-136 | the window an admission was counted in had closed, but for the clock skew, by the limit-th admission after it |
| `ApiLimiter.ManyAdmissionsSpanAWindow` | backend/internal/httpserver/ratelimit.go:117-136 | any 2·limit + 1 admissions in a row span more than a window less twice the clock skew, for a limit of one at least two windows less it |
| `ApiLimiter.TwiceHoldsExactlyWhen` | backend/internal/httpserver/ratelimit.go:117-162 | for every limit but two, window, skew and length: at most twice the limit in every closed interval that long, in all runs, if and only if the length is at most a window less twice the skew (for a limit of one, below two windows less twice the skew) |
| `ApiLimiter.TwiceAWindowHoldsIff` | backend/internal/httpserver/ratelimit.go:117-162 | for every limit, window and skew: at most twice the limit in every closed interval one window long, in all runs, if and only if the limit is zero, the skew is zero, or the limit is one and the skew below half a window |
| `ApiLimiter.ThreeWindows` | backend/internal/httpserver/ratelimit.go:117-162 | the run behind both: three windows of one client, the first two dropped as they expire, each next one opened by an earlier clock read |
| `Engine.Engine.Submit` | backend/internal/deploy/engine.go:190-246 | an invalid request changes nothing; a valid one starts with all steps pending, and evicts exactly what pruning evicts |
| `Engine.Engine.PruneRuns` | backend/internal/deploy/engine.go:590-600 | past the cap exactly the runs that are over and past retention are evicted; otherwise none |
| `Engine.Engine.UpdateStep` | backend/internal/deploy/engine.go:554-579 | one step's status changes |
| `Engine.Engine.AwaitTask` | backend/internal/deploy/engine.go:512-528 | a success marks the step; anything else fails the step and the run |
| `Engine.Engine.PollUntil` | backend/internal/deploy/engine.go:413-445 | true exactly when a poll answers before one has ended past the deadline |
| `Engine.Engine.Configure` | backend/internal/deploy/engine.go:373-408 | the configuring step, with the address and the readiness probe |
| `Engine.Engine.Run` | backend/internal/deploy/engine.go:249-330 | makes exactly the calls of the run's script, in order, on the deployment record and outside it; `EngineCalls` says what they are |
| `EngineCalls.EveryRunGoesForward` | backend/internal/deploy/engine.go:249-408 | every run makes its calls in one order, each at most once, and only cleans up after a failure |
| `EngineCalls.CallsComeInOrder` | backend/internal/deploy/engine.go:270-330 | place by place: the snippet before the create, the create before the finalize, that before the start, all before the connection and the end |
| `EngineCalls.EveryRunCalls` | backend/internal/deploy/engine.go:249-408 | for every world, how often each call is made, on the answers themselves: the create once unless the snippet failed, the start once exactly when the guest was created and is to be started, the connection exactly when a catalog run completes, and success exactly when every answer was one |
| `EngineCalls.TheRecordTellsTheTruth` | backend/internal/deploy/engine.go:512-579 | in the end the record's status, connection and each step's status are those the answers call for |
| `Engine.EveryRunBalances` | backend/internal/deploy/engine.go:249-408 | for every world: one end; one of finalize and release, finalize if and only if the create task succeeded; a written, named snippet removed if and only if the run fails |
| `Engine.StepListIsAlwaysShaped` | backend/internal/deploy/engine.go:249-330 | at every moment succeeded*, at most one running or failed, pending*; and how the list looks at the end |
| `DeploySet.ProvisionOrderIsStableSort` | backend/internal/deploy/set.go:227-248 | the order is sorted by role rank and a stable permutation |
| `DeploySet.StableSortIsUnique` | backend/internal/deploy/set.go:229-235 | any sequence that is both is this one |
| `DeploySet.RunSet` | backend/internal/deploy/set.go:92-175 | a member is submitted exactly when it is a server or every server before it was accepted and seen to succeed, released exactly when it was not submitted or not accepted, and recorded as it was observed; the set's status says whether all, some, or not even the servers succeeded |
| `DeploySet.CallsComeInTurn` | backend/internal/deploy/set.go:92-127 | members are submitted and released one after the other, in the provision order |
| `DeploySet.AgentsWaitForEveryServer` | backend/internal/deploy/set.go:92-127 | no agent is submitted unless every server was accepted and observed succeeded |
| `DeploySet.EveryReservationIsSettledOnce` | backend/internal/deploy/set.go:133-175 | skipped, rejected or run: each member's reservation is settled exactly once |
| `CreateHandlers.OwnershipStore.Release` | backend/internal/deploy/engine.go:639-648 | deletes the row if it is still pending |
| `CreateHandlers.OwnershipStore.Finalize` | backend/internal/deploy/engine.go:626-635 | activates the row if it is still pending |
| `CreateHandlers.Replay` | backend/internal/deploy/engine.go:626-648 | carrying a run's finalize and release calls out on its row makes each of them; exactly one leaves the row as that one does |
| `CreateHandlers.SubmitAndRun` | backend/internal/deploy/engine.go:190-330 | an accepted request's own run settles its row once, active if and only if the create task succeeded; a rejected one settles nothing |
| `CreateHandlers.CreateGuest` | backend/internal/handlers/create.go:136-201 | from the reservation on, through the engine's run, one settlement on every path; the row stays, active, exactly when the guest was created, and otherwise the store is as before |
| `CreateHandlers.Wire` | backend/internal/handlers/deployment_sets.go:224-232 | each member gets the row reserved for its VMID |
| `CreateHandlers.OrderKeepsIds` | backend/internal/deploy/set.go:229-235 | reordering loses and repeats no reservation |
| `CreateHandlers.CreateSet` | backend/internal/handlers/deployment_sets.go:177-244 | every reserved row is settled once; after a failure rows and sets are as before; otherwise servers come first, the status is what was observed, and a row is left, active, exactly for the members that were submitted, accepted and whose create task succeeded |
| `CreateHandlers.ReleaseAll` | backend/internal/handlers/deployment_sets.go:436-442 | undoes the batch reservation exactly |
| `CreateHandlers.SetRunSettlesEach` | backend/internal/deploy/set.go:92-175 | the calls of a set run submit each member at most once and settle it exactly once |
| `CreateHandlers.SettleSet` | backend/internal/deploy/set.go:92-175 | carrying those calls out one by one, with the runs they start, settles every row exactly once |
| `CreateHandlers.TeardownOrderSorts` | backend/internal/handlers/deployment_sets.go:637-665 | the teardown order has every member once, agents before servers, by VMID within a role |
| `CreateHandlers.TeardownOrderIsUnique` | backend/internal/handlers/deployment_sets.go:637-650 | members with distinct VMIDs have no other such order |
| `CreateHandlers.DeleteSet` | backend/internal/handlers/deployment_sets.go:331-412 | exactly the live members that accept are torn down, agents before servers and by VMID within a role; the set row goes if and only if none refused and the store deletes it |
| `Dispatch.RunTick` | backend/internal/scheduler/scheduler.go:182-196 | dispatching over a semaphore yields a schedule: in turn, never more than the slots, waiting only while all are held |
| `Dispatch.JobsRunOnTime` | backend/internal/scheduler/scheduler.go:182-196 | in every schedule the i-th job starts by ⌊i/m⌋ · H and ends by (⌊i/m⌋ + 1) · H |
| `Dispatch.AtMostSlotsRun` | backend/internal/scheduler/scheduler.go:185-194 | at no moment do more than m jobs run |
| `Dispatch.FullIsSchedule` | backend/internal/scheduler/scheduler.go:182-196 | every job taking the whole limit is a possible schedule |
| `Dispatch.NeverReclaimsIff` | backend/internal/scheduler/scheduler.go:24-34 | no waiting or running job can be reclaimed if and only if ⌈n/m⌉ · H ≤ the stale limit |
| `Dispatch.DefaultsNeverReclaimIff` | backend/internal/scheduler/scheduler.go:27-34 | with the defaults that holds if and only if at most eight jobs are claimed, and not for the claim limit |
| `Jobs.BackoffLoop` | backend/internal/scheduler/scheduler.go:324-341 | the loop gives the base doubled per attempt, capped, and never wraps below a 146-year cap |
| `Jobs.BackoffDoubles` | backend/internal/scheduler/scheduler.go:324-341 | the first retry waits the base, each further one twice as long, none more than the cap |
| `Jobs.JobTable.CompleteJob` | backend/internal/store/jobs.go:115-122 | a running row is succeeded, any other left alone |
| `Jobs.JobTable.RescheduleRecurring` | backend/internal/store/jobs.go:129-138 | rearms a running row and clears its attempts, leaves any other alone |
| `Jobs.JobTable.FailJob` | backend/internal/store/jobs.go:146-166 | counts a failure of a running row and retries or dead-letters it, saying which |
| `Jobs.JobTable.Process` | backend/internal/scheduler/scheduler.go:204-262 | when the handler runs; when the row is settled, failed or left for a reclaim; a success leaves a one-shot row succeeded and a recurring one scheduled at its next time, a failure below the maximum scheduled at its retry, and a row that was cancelled meanwhile cancelled |
| `Jobs.VerdictsTakeEffect` | backend/internal/store/jobs.go:115-166 | in every run a verdict that finds its row running settles it so, and one that comes too late changes nothing |
| `Jobs.SuccessIsForGood` | backend/internal/store/jobs.go:111-122 | once a success lands on a one-shot job it stays succeeded in every later state of every run and is never claimed again |
| `Jobs.DeadLetteredAfterMaxFailuresInARow` | backend/internal/store/jobs.go:140-166 | over every run, with overlapping workers, reclaims, cancels and bumps: attempts are the failures since the last success, and the row is dead-lettered exactly when they reach its maximum |
| `Jobs.TerminalIsForever` | backend/internal/store/jobs.go:111-166 | a finished or cancelled row never comes back |
| `Jobs.DeadLetterTakesEveryBackoff` | backend/internal/scheduler/scheduler.go:308-341 | unless bumped, or reclaimed under a process call still in flight, a job is dead-lettered no sooner than the sum of all its backoffs after the streak's first claim, drains and crashes included |
| `Jobs.DefaultTotal` | backend/internal/scheduler/scheduler.go:27-34 | for five attempts that is 450 seconds |
| `LoginProtocol.SessionsAreEarned` | backend/internal/auth/totp.go:337-489 | every session follows its own request's steps in order: read and password; or count, valid factor and won consume |
| `LoginFactors.PasswordAloneNeedsFactorOff` | backend/internal/auth/handlers.go:265-301 | in every run, a session without a second factor was issued to a user whose factor was off in the state the request read |
| `LoginFactors.MintsFollowThePassword` | backend/internal/auth/handlers.go:265-297 | every challenge is minted, open, without failures and with its time to live, after its request read the user with the factor on and checked the password |
| `LoginFactors.SecondFactorSessionsProveBoth` | backend/internal/auth/totp.go:337-489 | every other session goes back to a checked password of its own user and a challenge taken up in time, and to a TOTP code that matches or a recovery code this user had and had not used |
| `LoginFactors.FiveFailuresCloseAChallenge` | backend/internal/store/postgres.go:1349-1380 | a challenge's attempts are the failures recorded on it while open; it is closed exactly by the fifth or by a win |
| `LoginFactors.ReplacingRevokes` | backend/internal/store/postgres.go:1251-1270 | replacing recovery codes leaves the user exactly the fresh ones and nobody else's changed |
| `LoginProtocol.EachProofBacksOneSession` | backend/internal/auth/handlers.go:265-301 | in every interleaving a challenge and a recovery code back at most one session each, a challenge with five failures none, and the session goes to the challenge's user |
| `LoginProtocol.EveryTryIsCounted` | backend/internal/auth/totp.go:355-376 | each code checked was counted first, by its own request, once |
| `LoginTries.TriesAreRationed` | backend/internal/auth/totp.go:355-376 | with the limiter's state carried along: n codes tried for a user on any challenges, the factor not reset, need n counted attempts and put the clock at least 12 min · (n − 10) past the first of them |
| `LoginTries.TrackerRuns` | backend/internal/auth/ratelimit.go:344-372 | what a run of the protocol does to the second-factor tracker is a run of the tracker |
| `LoginProtocol.ChallengeStep` | backend/internal/store/postgres.go:1349-1380 | five failures consume a challenge, and a won challenge is never won again |
| `LoginProtocol.RowStep` | backend/internal/store/postgres.go:1271-1282 | a spent recovery-code row stays spent, by the same request |
| `RecoveryCodes.NormalizeRecoveryCode` | backend/internal/auth/totp.go:615-631 | the loop folds a typed code, character by character |
| `RecoveryCodes.NormalIsIdempotent` | backend/internal/auth/totp.go:612-631 | normalising twice is normalising once |
| `RecoveryCodes.TypedCodeMatchesOnlyItsOwn` | backend/internal/auth/totp.go:573-631 | what is hashed for a generated code is its ten characters, so no typed string matches two different codes |
| `RecoveryCodes.TypingStyleDoesNotMatter` | backend/internal/auth/totp.go:612-631 | anywhere in a code, either case, i, l and 1, and o and 0 are read alike, and a space, tab, line break or hyphen is ignored |
| `Broker.Channel.TrySend` | backend/internal/events/broker.go:53-55 | enqueues unless the buffer is full |
| `Broker.Hub.Subscribe` | backend/internal/events/broker.go:29-33 | registers an empty open channel |
| `Broker.Hub.Cancel` | backend/internal/events/broker.go:35-43 | unregisters before it closes, once |
| `Broker.Hub.Publish` | backend/internal/events/broker.go:49-66 | every subscriber's buffer gains the event, the oldest making way when it is full |
| `Broker.SilentSubscriberHoldsTheLatest` | backend/internal/events/broker.go:47-66 | a subscriber that never reads holds the latest sixteen, in order |
| `Broker.EverySubscriberIsCurrent` | backend/internal/events/broker.go:29-66 | in every interleaving each buffer is the newest contiguous stretch since the subscription, what was received is in publish order, and every event is buffered, received or dropped |
| `Broker.EveryPublishIsEnqueued` | backend/internal/events/broker.go:53-64 | the send that ends a subscriber's turn always enqueues the new event |
| `Broker.NeverSendsOnClosed` | backend/internal/events/broker.go:36-41 | the publisher never touches a closed channel |
| `Broker.PublishNeverWaits` | backend/internal/events/broker.go:47-66 | a publish under way always has an enabled step, and each step brings it nearer its end |
| `Broker.NothingIsLostUnlessFull` | backend/internal/events/broker.go:47-62 | a subscriber never found full loses nothing |
| `TtlExpiry.TTLExpire` | backend/internal/lifecycle/ttl.go:282-311 | for every world, on the answers themselves: when a destroy is asked for, a tombstone written and an expiry marked; an error exactly when the payload or a read failed, or a due expiry did not succeed; the trace is safe, the intent finished once, last, as the outcome says, and a gone guest's jobs are cancelled |
| `TtlExpiry.ExpireStop` | backend/internal/lifecycle/ttl.go:317-367 | marks the guest expired exactly when it was found stopped, after the intent |
| `TtlExpiry.ExpireDelete` | backend/internal/lifecycle/ttl.go:375-445 | asks for the destroy exactly when the guest was found stopped, and tombstones exactly after a confirmed destroy |
| `TtlExpiry.WatchedIsSafe` | backend/internal/lifecycle/ttl.go:313-445 | a trace the monitor accepts has every guarantee, place by place |
| `Materialize.JobStore.CancelJobsForVMIDByPrefix` | backend/internal/store/jobs.go:203-212 | cancels exactly the guest's rows under the prefix |
| `Materialize.JobStore.MaterializeTtl` | backend/internal/lifecycle/ttl.go:113-180 | all or nothing: the guest's live TTL jobs are exactly those its TTL calls for, everything else is as it was |
| `Materialize.JobStore.EmitTtl` | backend/internal/lifecycle/ttl.go:157-180 | the warnings still worth giving, then the expiry |
| `Materialize.JobStore.ExtendTtl` | backend/internal/lifecycle/ttl.go:203-240 | all or nothing: the capped expiry, both warnings cleared, and one live expiry job, at the new time; an error when the TTL is gone |
| `Materialize.JobStore.MaterializeSchedule` | backend/internal/lifecycle/autoshutdown.go:112-151 | all or nothing: the guest's live shutdown jobs are exactly those the resolved schedule calls for |
| `Materialize.JobStore.EmitSchedule` | backend/internal/lifecycle/autoshutdown.go:205-263 | stop, warning and optional start, or an error for any part that does not parse |
| `Materialize.OneExpiry` | backend/internal/lifecycle/ttl.go:176-179 | after a projection the guest has exactly one live expiry job, at its TTL's time, or none |
| `Materialize.ProjectingTwiceIsOnce` | backend/internal/lifecycle/ttl.go:135-152 | projecting again changes nothing |
| `Materialize.RewriteTouchesOnlyItsOwn` | backend/internal/lifecycle/autoshutdown.go:134-140 | no job of another guest or of the other feature changes |
| `Materialize.ProjectionsCommute` | backend/internal/lifecycle/ttl.go:135-140 | rewriting a guest's TTL jobs and a guest's schedule jobs, whatever they call for, gives the same live jobs in either order |
| `JobTimes.WarningsLeadTheExpiry` | backend/internal/lifecycle/ttl.go:157-175 | the live warnings lie exactly 24 hours and one hour before the expiry, once each, if still to come and not sent |
| `JobTimes.TheExpiryIsOnTime` | backend/internal/lifecycle/ttl.go:176-179 | the one live expiry is due at the TTL's expiry |
| `JobTimes.NoTtlNoJobs` | backend/internal/lifecycle/ttl.go:135-152 | no TTL or no owner leaves no live TTL job; an unreadable TTL changes nothing |
| `JobTimes.TheScheduleThatApplies` | backend/internal/lifecycle/autoshutdown.go:112-263 | a guest's own row wins outright over its project's; opted out or disabled means no job; otherwise stop, warning and optional start fire every week at exactly their own times and days |
| `JobTimes.OptedOutHasNoJobs` | backend/internal/lifecycle/autoshutdown.go:173-201 | after a projection an opted-out or disabled guest has no live shutdown job |
| `Cron.ParseAcceptsExactly` | backend/internal/lifecycle/cron.go:15-29 | accepted are exactly two numerals in range around one colon, padded or signed or not, and their values are read |
| `Cron.CronExpr` | backend/internal/lifecycle/cron.go:35-41 | the five-field line for a time and a day list |
| `Cron.ParseOfFields` | backend/internal/lifecycle/cron.go:31-41 | the line reads back as the time and the days, in order |
| `Cron.FiresWhen` | backend/internal/lifecycle/cron.go:31-41 | the line fires at exactly those minutes of every week |
| `Cron.WarnTime` | backend/internal/lifecycle/cron.go:48-59 | every firing moves back by fifteen minutes modulo the week |
| `Cron.WarnAndStop` | backend/internal/lifecycle/cron.go:43-59 | the warning's line fires at t if and only if the stop's line fires at t + 15 min, for every t |
| `PveOptions.Net0String` | backend/internal/deploy/params.go:168-194 | the part-by-part builder composes the request's pairs |
| `PveOptions.BuildCreateParams` | backend/internal/deploy/params.go:198-259 | the option strings of a valid request, and an error for any other and for a clone |
| `PveOptions.ParsePveValue` | backend/internal/handlers/guest_detail.go:516-532 | the first part and the options, the last of a repeated key winning |
| `PveOptions.Net0RoundTrip` | backend/internal/handlers/guest_detail.go:534-558 | a composed net0 parses back to the bridge, VLAN tag, firewall flag and container address, with exactly the expected options |
| `PveOptions.DrivesRoundTrip` | backend/internal/handlers/guest_detail.go:560-585 | a container has a rootfs, every VM a scsi0, exactly an ISO install an ide2, and no other; each parses back to storage, volume, image and CD-ROM flag, with no other option |
| `PveOptions.CidrIsClean` | backend/internal/deploy/params.go:20-21 | an accepted address cannot end or split an option |
| `Text.SplitOfJoin` | backend/internal/handlers/guest_detail.go:518 | splitting joined parts gives them back |
| `Text.CutOfPair` | backend/internal/handlers/guest_detail.go:519 | cutting a composed pair gives the key and the value back |
| `Sessions.SessionStore.Verify` | backend/internal/auth/session.go:189-225 | accepts exactly a row not revoked and within both deadlines, of an enabled user, and touches it when its last touch is a minute old |
| `Sessions.SteadyUseIsAccepted` | backend/internal/auth/session.go:189-225 | with touches landing at once, gaps that leave the idle TTL the longest age that starts no touch keep a session accepted to its absolute expiry |
| `Sessions.SteadyUseSurvivesLateTouches` | backend/internal/auth/session.go:195-210 | with the clock read up to a lag after the row, and touches landing up to a delay late, over one another and between the two reads, so do gaps that leave room for delay and lag, and for the larger of that age and delay and lag |
| `Sessions.SteadyUseNeverExpiresIff` | backend/internal/auth/session.go:195-210 | while delay and lag stay below the touch throttle and gaps may reach it, every steady run is accepted if and only if gap + delay + lag + throttle − 1 ns ≤ idle TTL |
| `Sessions.LateTouchesReviveNothing` | backend/internal/auth/session.go:195-210 | a gap over the idle TTL or a use past the absolute expiry is rejected for good, whatever touches still land and however early the row was read |
| `Sessions.ExpiryIsForGood` | backend/internal/auth/session.go:199-203 | a gap over the idle TTL, or a use past the absolute expiry, is rejected for good |
| `Sessions.LiveImpliesInTime` | backend/internal/auth/session.go:232-237 | Live implies Verify's checks; they differ exactly on a deadline |
| `Slugs.SlugIsItsWords` | backend/internal/handlers/tenants.go:129-141 | a slug is the lower-cased name's words joined by single hyphens, and never empty |
| `Slugs.SlugifyIsIdempotent` | backend/internal/handlers/tenants.go:134-141 | a slug is its own slug |
| `Slugs.SlugsAreClean` | backend/internal/handlers/tenants.go:134-141 | a slug is not empty and has only lower-case letters, digits and single hyphens between them |
| `Slugs.Pigeonhole` | backend/internal/handlers/projects.go:246-251 | n taken candidates need n taken slugs |
| `Slugs.UniqueSlug` | backend/internal/handlers/projects.go:242-252 | ends with the name itself if free, or else the first free one of name-2, name-3, ..., at most one beyond the number of taken slugs |

## Left out

- PasswordRate.PasswordFailuresAreRationed: counts only failures the tracker counts; when every entry of a full tracker is protected, a new email is refused instead (`AllowAccount` reports saturation).
- Materialize.JobStore.MaterializeSchedule: NextCron is a parameter, fixed for one transaction; the cron library, time zones and daylight saving are not modelled.
- CreateHandlers.CreateGuest: the release and finalize calls are taken to reach the store; the source logs a failed one and leaves the row to the reconciler.
- CreateHandlers.CreateSet: makes the same assumption, for every member's call and for the set row's delete.
- PveOptions.BuildCreateParams: the name, node, VMID, size, tag and cloud-init fields are not modelled, only the option strings.
- Engine.Engine.Run: creating a VM, creating a container and cloning are one call here, as are the parameters it carries.
- DeploySet.RunSet: a panic inside the orchestrator, and the frames it publishes, are not modelled.
- Lockout entries are values in the maps, where the source shares a pointer with the map that holds it; one slot holds each pointer, so nothing is aliased.
- Unicode lower-casing of emails and names is a parameter of which only a few facts are used.
- Quota arithmetic, `SKIP LOCKED`, the Proxmox client, snippets over SFTP, SSE writing, mail and configuration.
- Hashing, random tokens, TOTP arithmetic (section 4.2 of RFC 6238) and the hashing semaphore: oracles.
- AutoShutdownStop and AutoShutdownStart follow the same pattern as TTL expiry and would add only easier members.
- Skip-next alignment, permission tables, error mapping, JSON conversion and activity paging.
- ApiLimiter.TwiceHoldsExactlyWhen: for a limit of exactly two only the closed window itself is settled, by `TwiceAWindowHoldsIff`.
- Sessions.SteadyUseSurvivesLateTouches: a touch that fails is not modelled; each one lands within the delay. `SteadyUseNeverExpiresIff` is exact only for delays below the throttle, the case the throttle is made for.
