# Verified model of the resilience kernel

The service sits in front of an LLM provider. What keeps it standing when callers, the provider or a
callback receiver misbehave is a small kernel of stateful components: a token bucket per caller, a circuit
breaker shared by every request in flight, a retry loop with backoff and a budget, and background jobs whose
results are stored and pushed to a callback. This project models that kernel in Dafny and proves what it
promises over every input, run and interleaving. `dafny verify dfyconfig.toml` checks all of it.

Times and tokens are reals and clock readings are parameters, non-decreasing where a statement depends on
it. The provider, the callback receiver, sleeps, jitter, wall-clock time, the MAC and JSON serialisation are
parameters too, arbitrary unless a statement says otherwise; a reply may be any exception, a sleep may be cut
short by the teardown of its caller, and a write to the usage store may fail or be cut short as well. Objects the
source updates in place are classes with the same fields; a ghost log beside the fields of the token bucket and
the circuit breaker states what those fields mean. The operations on values that specify the methods are shared
with the state machines in which the steps of many calls or jobs interleave, and each specification is proved to
be a run of its machine.

| file | contents |
|---|---|
| `TokenBucket.dfy` | the bucket, its meaning as a sliding-window log, refused checks |
| `BucketPromises.dfy` | the reported numbers, the window bound, greedy optimality |
| `RateLimiter.dfy` | one bucket per caller: isolation and lazy creation |
| `CircuitBreaker.dfy` | the breaker and its state as a function of history |
| `BreakerRuns.dfy` | overlapping calls on one breaker, load during an outage |
| `BreakerDiagram.dfy` | when the textbook diagram holds, how many trials pass, and runs that meet the bounds |
| `Reals.dfy`, `Runs.dfy`, `Errors.dfy` | minimum and maximum; how runs go on; the error taxonomy |
| `Retry.dfy`, `WallClock.dfy` | the retry loop in an arbitrary world, and what its budget bounds in time |
| `Completion.dfy`, `CompletionRuns.dfy` | guarded, retried, metered completions; retry against breaker; usage |
| `CompletionMachine.dfy` | many completions retrying at once on one breaker, each metered |
| `Signing.dfy`, `Webhooks.dfy` | the signed message and its delivery |
| `Deadlines.dfy` | the worst case of `WallClock.dfy` for completions and for deliveries |
| `JobModel.dfy`, `Jobs.dfy` | job rows, the store and the service |
| `JobMachine.dfy`, `JobRuns.dfy` | all jobs interleaved; one job as a run of that machine; stranded jobs |

Where the code and its own words differ, the model follows the code:

- `before_call` says it lets exactly one trial request through, and in the next line that nothing caps
  concurrent trials (src/services/resilience.py:121-122). `OneTrialIffAlone` says when which is true: once an
  open circuit has turned half-open, every call that arrives before the first report is a trial, so exactly one
  passes iff no second call arrives before that report. `ProbesAreNotCapped` builds, for every n, a run with n
  unanswered trials at one instant.
- A circuit is described as opening, probing, closing. `OffDiagramOnlyByLateSuccess` says exactly when a step
  leaves that diagram - a success recorded while the circuit is open - `LateSuccessClosesOpenCircuit` that it
  happens at every threshold, and `SequentialRunsFollowDiagram` that it never does while calls do not overlap.
- The background half of a job says nothing in it may raise (src/services/jobs.py:70). A completion that ends
  outside the taxonomy escapes, and its row says running for ever (`EscapedForever`). `StrandedIff` gives the
  condition on the world: a job that runs leaves its row running iff the last reply its completion heard made the
  client raise an exception outside the taxonomy, or one of its sleeps was cut short, or it was torn down while
  writing its usage entry. `AJobIsStranded` builds a run for each.
- Usage is meant to have one row per request (src/models/tables.py:43). Of the requests that are entered - one
  refused by the limiter never is, and leaves no row - `UsageIsConserved` says that each has its entry iff none
  met an unexpected reply or had a sleep cut short, and every write was stored; the token totals are those of the
  successes whose entry was. `WaysToGoUnmetered` shows that each of the four ways happens.
- The retry budget is called a total wall-clock allowance, though a wait that would exceed it is not taken
  (README.md:149). What it bounds, in every world, is the moment at which an attempt after the first is scheduled
  (`EveryAttemptIsScheduledInBudget`). Let no attempt last longer than `longest` and no sleep overshoot by more
  than `late`, no configured number be negative and jitter lie in [0, 1]. Then no loop outlasts `LongestLoop` and
  no attempt begins after `LatestStart`, and on a clock that never runs backwards both are attained, for every
  policy, whether or not the other side may say how long to wait (`NoLoopIsLonger`, `LongestLoopIsAttained`).
  Hence `BudgetIsKeptIff`: every loop ends within the budget iff `longest` and `late` are both zero or all
  attempts, all but the last with their largest waits and overshoots, fit in it. And `StartsAreKeptIff`: every
  attempt begins within the budget iff sleeps never overshoot or all attempts but the last so fit in it.
  `AnyCircuitBudgetIff` and `DeliveryBudgetIff` say the same of the program's own two loops.
- A breaker threshold below one behaves as one, so no statement needs it to be positive.

## Model

| member | source | states |
|---|---|---|
| TokenBuckets.WindowStart | src/services/rate_limiter.py:19-30 | a new bucket's fields are the least slack of its log, which holds only its creation |
| TokenBuckets.WindowStep | src/services/rate_limiter.py:32-44 | a check is granted iff it overdraws no window opened by any earlier entry of the full log or by itself, and the two fields stay the least slack of those windows, for any amount, rate and clock |
| TokenBuckets.SlidingWindow | src/services/rate_limiter.py:29-55 | the same over the whole life of a bucket: after any checks, two numbers decide exactly as the unbounded log would |
| TokenBuckets.TokenBucket.constructor | src/services/rate_limiter.py:19-30 | creation fills the bucket and starts the log |
| TokenBuckets.TokenBucket.RefillAt | src/services/rate_limiter.py:32-37 | refilling in place is the refill on values |
| TokenBuckets.TokenBucket.Take | src/services/rate_limiter.py:39-55 | the object grants iff its log leaves room, logs what it spent, and reports the figures whose meaning the lemmas below give |
| TokenBuckets.RefillTwice | src/services/rate_limiter.py:32-37 | refilling in pieces equals refilling once |
| TokenBuckets.RefusedChecksAreFree | src/services/rate_limiter.py:32-44 | erasing any set of refused checks from any trace leaves every field of every other decision unchanged |
| BucketPromises.StaysInRange | src/services/rate_limiter.py:32-44 | the tokens stay between zero and the capacity through any trace |
| BucketPromises.NoWindowIsOverdrawn | src/services/rate_limiter.py:9-17 | over every window from any check or the creation to any later check, no more is spent than the capacity plus what accrued: there is no boundary to straddle |
| BucketPromises.RetryAfterIsExact | src/services/rate_limiter.py:46-55 | a refusal announces a wait; any checks before it has passed are refused, and a check after them is granted iff it has passed and the amount fits the capacity at all |
| BucketPromises.RemainingIsExact | src/services/rate_limiter.py:48-55 | remaining = n, never above the limit, means the next n checks are granted whenever they come, and with no time passing exactly n are; a granted check announces no wait |
| BucketPromises.ResetAfterIsExact | src/services/rate_limiter.py:48-55 | a burst of exactly the reported limit passes iff at least reset_after was spent idle, and one more never passes; reset_after is zero iff the bucket is left full |
| BucketPromises.GreedyIsOptimal | src/services/rate_limiter.py:39-44 | no policy that keeps its own equal bucket from going negative has granted more after any number of arrivals, even knowing them all |
| BucketPromises.GreedyIsSolvent | src/services/rate_limiter.py:39-44 | the program's own grants are such a policy, so the optimum is attained |
| RateLimiting.InMemoryRateLimiter.constructor | src/services/rate_limiter.py:71-80 | the limiter starts with no buckets |
| RateLimiting.InMemoryRateLimiter.Check | src/services/rate_limiter.py:82-91 | one check creates or charges the caller's bucket only, with a clock reading for each, grants iff that caller's own log leaves room, and logs what it granted |
| RateLimiting.CallersAreIsolated | src/services/rate_limiter.py:82-91 | in any interleaving a caller's decisions are those of its own checks on a bucket that sat full from the start: neither other callers nor lazy creation can be observed |
| Breakers.StateIsHistory | src/services/resilience.py:113-151 | failure count, state and opened_at are functions of the log of checks and reports in whatever order they came; while not closed, opened_at is the latest failure |
| Breakers.AdmissionIsHistory | src/services/resilience.py:113-124 | a request is admitted iff fewer than threshold failures were recorded since the last success or reset_timeout has passed since the last failure |
| Breakers.HalfOpenDisjunctIsRedundant | src/services/resilience.py:133-140 | the machine that only compares the count behaves identically on every run, and closed means below the threshold |
| Breakers.CircuitBreaker.constructor | src/services/resilience.py:94-107 | a fresh breaker is closed with no history |
| Breakers.CircuitBreaker.BeforeCall | src/services/resilience.py:113-124 | the object admits exactly by the history rule |
| Breakers.CircuitBreaker.RecordSuccess | src/services/resilience.py:126-131 | a success resets the count and closes, keeping state and history in step |
| Breakers.CircuitBreaker.RecordFailure | src/services/resilience.py:133-140 | a failure counts and may trip, keeping state and history in step |
| Breakers.CircuitBreaker.Trip | src/services/resilience.py:142-151 | tripping opens the circuit as of now |
| BreakerRuns.EveryInterleavingObeysHistory | src/services/completion.py:101-116 | with any number of overlapping calls, outcomes arriving in any order, an arriving call reaches the provider iff the history rule admits it, and the state is the one history assigns |
| BreakerRuns.OutageLoadBound | src/services/resilience.py:113-151 | with at most m calls in flight, all failing retryably, at most threshold - 1 + m + m * floor(length / reset_timeout) calls reach the provider in the first length seconds of any run |
| BreakerDiagram.OutageBoundIsAttained | src/services/resilience.py:113-151 | for every m and number of periods some run reaches that bound exactly |
| BreakerDiagram.OffDiagramOnlyByLateSuccess | src/services/resilience.py:113-151 | a step leaves the textbook diagram iff it records a success while the circuit is open |
| BreakerDiagram.SequentialRunsFollowDiagram | src/services/resilience.py:113-151 | while calls do not overlap every step of every run follows the diagram |
| BreakerDiagram.FailuresBeyondThresholdAreSpaced | src/services/completion.py:101-116 | while calls do not overlap, failures beyond the threshold-th are at least reset_timeout after every earlier one since the last success |
| BreakerDiagram.LateSuccessClosesOpenCircuit | src/services/resilience.py:126-131 | at every threshold some run closes an open circuit by a late success |
| BreakerDiagram.OneTrialIffAlone | src/services/resilience.py:113-124 | from the step that turns an open circuit half-open until the first report, every arriving call passes as a trial, so exactly one does iff no second call arrives before that report, which ends the half-open phase |
| BreakerDiagram.ProbesAreNotCapped | src/services/resilience.py:121-124 | for every n some run sends n trial calls through a half-open circuit at one instant |
| Retrying.Run | src/services/resilience.py:55-80 | the loop ends in the state, with the outcome and after the number of attempts of the recursive specification over the injected world |
| Retrying.RetryShape | src/services/resilience.py:55-80 | between one and max(1, max_attempts) attempts, all but the last retryable failures; a retryable failure is handed back iff attempts or budget ran out, and the loop crashes iff its last attempt did or a sleep was cut short |
| Retrying.RetryIsATrace | src/services/resilience.py:55-80 | in every world each attempt begins where the sleep after the one before it ended, each sleep is the policy's for that failure and fitted the budget then, and giving up on the budget means the next one did not |
| Retrying.WaitsAreHonest | src/services/resilience.py:48-49 | a given Retry-After is the wait taken, capped |
| Retrying.WaitsWithinBudget | src/services/resilience.py:67-80 | if whole sleeps last at least what was asked, the sleeps a loop goes into sum to at most the budget |
| WallClock.EveryAttemptIsScheduledInBudget | src/services/resilience.py:69-80 | in every world each attempt after the first is scheduled within the budget |
| WallClock.OverrunIsOneSleepAndOneAttempt | src/services/resilience.py:55-80 | in every world a loop that slept outlasts the budget by at most the overshoot of its last sleep and the length of the attempt after it |
| WallClock.TotalTimeIsBounded | src/services/resilience.py:69-80 | with bounded attempts and overshoots, the loop lasts at most the budget plus one overshoot and one attempt, or one attempt if there is no retry, and a later attempt begins at most one overshoot after the budget |
| WallClock.TotalTimeIsBoundedByAttempts | src/services/resilience.py:41-80 | the number of attempts bounds the loop too: max_attempts - 1 attempts, each with the largest wait the policy and the hints allow after it and the largest overshoot, and one more |
| WallClock.NoLoopIsLonger | src/services/resilience.py:41-80 | both bounds at once, on the end of the loop and the start of each attempt, in every world |
| WallClock.LongestLoopIsAttained | src/services/resilience.py:41-80 | for every policy and all bounds on attempts and overshoots, with Retry-After or without, one loop on a clock that never runs backwards attains both, on its last start and on its end |
| WallClock.BudgetIsKeptIff | src/services/resilience.py:55-80 | on clocks that never run backwards every loop ends within the budget iff attempts take no time and sleeps do not overshoot, or all attempts with their largest waits and overshoots fit in the budget: a condition on the configuration alone |
| WallClock.StartsAreKeptIff | src/services/resilience.py:69-80 | on clocks that never run backwards every attempt begins within the budget iff sleeps do not overshoot, or all attempts but the last with their largest waits and overshoots fit in it |
| Deadlines.CompletionEndsInTime | src/services/completion.py:52-116 | a completion whose calls, sleeps and jitter keep the bounds ends and starts its attempts within the worst case, whatever the breaker does |
| Deadlines.LongestCompletion | src/services/completion.py:52-116 | some provider and sleeps make a completion as long as the worst case, if the circuit stays closed until its last attempt |
| Deadlines.CompletionBudgetIff | src/services/completion.py:52-116 | every completion ends within its budget if all attempts with their longest sleeps fit in it, and only if, where the circuit stays closed until the last attempt |
| Deadlines.AnyCircuitBudgetIff | src/services/completion.py:52-116 | every completion, on every circuit, ends within its budget iff all attempts with their longest sleeps fit in it |
| Deadlines.DeliveryEndsInTime | src/services/webhooks.py:56-79 | a delivery whose posts, sleeps and jitter keep the bounds ends and starts its attempts within the worst case of its exponential steps |
| Deadlines.LongestDelivery | src/services/webhooks.py:56-79 | some receiver and sleeps make a delivery that long |
| Deadlines.DeliveryBudgetIff | src/services/webhooks.py:56-79 | every delivery ends within its budget iff all attempts with their exponential steps and largest overshoots fit in it |
| WallClock.OneAttemptOutlastsTheBudget | src/services/resilience.py:55-80 | under every policy a single attempt may outlast the budget by any time |
| WallClock.OvershootStartsLate | src/services/resilience.py:69-80 | a sleep that overshoots lets an attempt begin after the budget |
| Retrying.BackoffDoubles | src/services/resilience.py:51-53 | at full jitter and without Retry-After the waits of any loop start at the initial backoff and double from attempt to attempt, each capped |
| Retrying.WaitsAreJittered | src/services/resilience.py:48-53 | without a Retry-After the wait after each attempt is the initial backoff doubled once per earlier attempt, capped, times the jitter drawn then |
| Retrying.DelayBounds | src/services/resilience.py:51-53 | a jittered wait lies between zero and the smaller of its exponential step and the ceiling |
| Retrying.BackoffIsGeometric | src/services/resilience.py:41-53 | without Retry-After, n attempts wait at most min((n-1) * max_backoff, initial_backoff * (2^(n-1) - 1)) in total |
| Completing.EveryFailureIsNamed | src/services/completion.py:118-178 | the code of a failure identifies which of eight kinds of failing reply it was, no two kinds sharing one; its status is that kind's; and only a 429 asks for a wait, the provider's own and never negative |
| Completing.EveryFailureSpeaks | src/services/completion.py:140-167 | what a failure says to the caller: a rejection or an unknown model in the provider's own words if it has any, everything else in the service's, and which upstream status it quotes |
| Completing.CircuitOpenIsNamed | src/errors/exceptions.py:133-137 | a paused circuit has its own code and 503, is not worth retrying and asks for no wait |
| CompletionRuns.CompletionMeetsItsProvider | src/services/completion.py:101-138 | every completion attempt by attempt: the k-th provider call meets the k-th reply, takes its time, ends as that kind of reply does, and the jitter and sleep after it are the next ones |
| CompletionRuns.FailureSaysWhy | src/services/completion.py:52-73 | what a failed completion returns names what stopped it: a paused circuit, or the kind of the last reply it heard |
| CompletionRuns.ProviderTextStaysInside | src/services/completion.py:140-167 | no part of any completion depends on what the provider writes in a reply about our credentials, in a throttling one or in a 5xx |
| Completing.UsageStore.Record | src/services/completion.py:96-99 | one entry is appended, a failing store loses that entry and nothing else, and only teardown, before or after the commit, keeps the write from returning |
| Completing.CompletionService.Settle | src/services/completion.py:101-116 | whatever other requests did to the breaker while the provider answered, exactly the report of this reply is added: a success, an infrastructure failure, or nothing |
| Completing.CompletionService.GuardedCall | src/services/completion.py:101-116 | the provider is called iff the breaker's history admits it, and the breaker learns of a success, a retryable failure, or nothing |
| Completing.CompletionService.RunGuarded | src/services/completion.py:68-68 | retrying guarded calls on the shared breaker is the retry loop in the provider's world |
| Completing.CompletionService.Complete | src/services/completion.py:52-99 | the outcome is the retry loop's, unless torn down in the write, and exactly one entry of what the loop came to is recorded whatever the number of attempts, under the requested model if one is named and the default one otherwise |
| Retrying.DelayUnderCeiling | src/services/resilience.py:41-53 | no wait, hinted or not, exceeds the largest backoff |
| CompletionRuns.OpeningCircuitCutsRetriesShort | src/services/completion.py:101-116 | one completion against a dead provider from closed with f failures, whatever its sleeps: it ends in UpstreamCircuitOpen iff a sleep after threshold - f or more failures is under reset_timeout; it makes more than threshold - f calls iff the sleep after the tripping failure is not; and every attempt if neither circuit nor budget nor teardown stops it |
| CompletionRuns.ShortSleepStaysShut | src/services/completion.py:101-116 | if the sleep after the tripping failure, when there is one, is under reset_timeout: min(max(1, max_attempts), threshold - f) provider calls unless budget or teardown stops it first, and then UpstreamCircuitOpen iff threshold - f < max_attempts |
| CompletionRuns.LaterShortSleepCutsShort | src/services/completion.py:101-116 | a completion whose tripping sleep is long still ends in UpstreamCircuitOpen after a later short one |
| CompletionRuns.CrashedIffStruck | src/services/completion.py:68-138 | a retry loop over the provider ends outside the taxonomy iff the last reply it heard made the client raise outside it or one of its sleeps was cut short |
| CompletionRuns.Serve | src/services/completion.py:52-99 | a service that serves requests one after another gives each the result of its retry loop, on the breaker the one before left, unless torn down in the write, and adds exactly their book to the store |
| CompletionRuns.UsageIsConserved | src/services/completion.py:52-99 | over any requests entered and served one after another the token totals equal what the successes with a stored entry used; there is one entry each iff none met an unexpected reply or had a sleep cut short and every write was stored; and then each has its caller, the requested model or else the default one, and the status its loop came to, 200 iff a success |
| CompletionRuns.WaysToGoUnmetered | src/services/completion.py:67-99 | an unexpected reply, teardown in a sleep, a failing store after a success, and teardown before the commit each leave no entry; teardown after the commit leaves one |
| CompletionMachine.RunIsSeen | src/services/completion.py:52-116 | every run of many retrying completions, seen by the breaker, is a legal run of overlapping calls with the same breaker, calls in flight and provider count |
| CompletionMachine.AttemptsObeyHistory | src/services/completion.py:101-116 | in any interleaving of retrying completions an attempt reaches the provider iff the history rule admits it, and otherwise its completion is over with UpstreamCircuitOpen, unless torn down in the write |
| CompletionMachine.OutageLoadWithRetries | src/services/completion.py:52-116 | the outage bound holds however many completions retry at once |
| CompletionMachine.EveryCompletionIsFair | src/services/completion.py:52-99 | in every reachable state every completion is within its attempts and the store holds exactly what its final outcome is worth |
| CompletionMachine.OneEntryPerCompletion | src/services/completion.py:67-99 | in any interleaving, teardowns included, a completion leaves no entry while going on and, once over, exactly one of what it came to, status 200 iff a success, or none iff it crashed before writing or the write was not stored |
| CompletionMachine.TokensAreConserved | src/services/completion.py:67-99 | in any interleaving the tokens of the whole store are those of the completions that are over, succeeded and had their entry stored |
| CompletionMachine.RetryIsARun | src/services/completion.py:52-116 | from any reachable state the retry loop Complete is proved against is a legal run of that completion's steps, with the same breaker, provider calls, outcome and usage entry |
| Signing.ParsePrint | src/services/webhooks.py:27-36 | parsing a printed integer gives it back, for every integer |
| Signing.PrintIsCanonical | src/services/webhooks.py:27-27 | the numeral printed has no plus sign and no leading zero |
| Signing.HeadersThatParse | src/services/webhooks.py:36-36 | a plus sign or a leading zero in a header changes nothing, and a minus negates |
| Signing.HeadersThatDoNotParse | src/services/webhooks.py:36-36 | a header is refused iff it has no digits or another character |
| Signing.MessageIsInjective | src/services/webhooks.py:27-27 | equal signed messages have equal timestamps and equal bodies, for all integers and byte strings |
| Signing.VerifyAcceptsSigned | src/services/webhooks.py:16-40 | a receiver accepts what was signed, under any MAC |
| Signing.AcceptedForm | src/services/webhooks.py:16-40 | a header is accepted iff it is sha256= followed by the MAC of the timestamp's digits, a dot and the body |
| Signing.SignatureBindsTimestampAndBody | src/services/webhooks.py:16-40 | if the MAC tells two different messages apart, a signature is accepted for a header and body iff they are the signed timestamp and body |
| Webhooks.PostsMatchAttempts | src/services/webhooks.py:56-107 | every attempt of the retry loop is one POST of the same body, to the same URL, bearing the wall-clock time of that attempt, that the receiver can verify, and its outcome is what the receiver did then |
| Webhooks.DeliveryMeetsItsReceiver | src/services/webhooks.py:56-107 | every delivery attempt by attempt: each POST takes its answer's time, and the jitter and sleep after it are the next ones |
| Webhooks.ReportTells | src/services/webhooks.py:67-107 | what a delivery comes back with: the number of POSTs, and on failure one code, 502, the receiver's status if it gave one and whether that was worth repeating |
| Webhooks.WebhookService.Deliver | src/services/webhooks.py:56-79 | between one and max(1, max_attempts) verifiable POSTs of one body, each with its own time, all but the last met a receiver out of reach, throttling or failing; the result tells how the last went and carries their number, unless a sleep after it was cut short |
| JobModel.AssignCompletion | src/services/jobs.py:98-121 | the field updates of a finished completion make the row succeed with content or fail with an error |
| JobModel.AssignDelivery | src/services/jobs.py:130-147 | the field updates of a delivery record attempts, and a delivery time only on success; a start makes the row running |
| Jobs.Job.SetAttribute | src/repositories/jobs.py:102-103 | setting one field in place changes that field only |
| Jobs.InMemoryJobRepository.Create | src/repositories/jobs.py:86-94 | the job is stored under its id and no other row changes |
| Jobs.InMemoryJobRepository.Update | src/repositories/jobs.py:96-103 | all given fields of the stored job are set in order, in place; an unknown id and every other job are untouched |
| Jobs.InMemoryJobRepository.Get | src/repositories/jobs.py:105-111 | a job is visible to the caller that owns it and to nobody else |
| Jobs.JobService.Accept | src/services/jobs.py:35-51 | an accepted id can be looked up at once by exactly its caller, who sees a pending job on the given model, created now, that nothing has happened to; the row keeps prompt and callback |
| Jobs.JobService.Get | src/services/jobs.py:53-61 | someone else's job and no job at all get the same answer, a 404 |
| Jobs.JobService.Execute | src/services/jobs.py:85-128 | the row receives the outcome of the completion, or nothing if it escapes; the breaker is left valid in the completion's state and the store with its entry |
| Jobs.JobService.Deliver | src/services/jobs.py:130-147 | the row records the number of POSTs made, and nothing at all if delivery crashed or was torn down |
| Jobs.JobService.Run | src/services/jobs.py:63-83 | the undisturbed background half composes start, execution on the shared breaker and verified delivery of the row's payload, and leaves breaker and usage store ready for the next job |
| JobRuns.UndisturbedRun | src/services/jobs.py:63-147 | what Run leaves: a final row showing the delivered payload, the POSTs made and the delivery time unless something crashed, and no other row changed |
| JobRuns.UndisturbedRunIsARun | src/services/jobs.py:63-147 | from any reachable state with the job queued, the rows Run is proved to leave and the POSTs it makes are those of a legal run of that job's steps |
| JobRuns.FailedJobSaysWhy | src/services/jobs.py:98-112 | a job whose completion fails carries the code and message of what stopped it: a paused circuit, or the kind of the last reply heard |
| JobRuns.EscapedForever | src/services/jobs.py:63-128 | a job whose completion ended outside the taxonomy says running in every legal continuation |
| JobRuns.StrandedIff | src/services/jobs.py:63-128 | whatever went on before, running a queued job leaves its row running iff its completion met an unexpected reply, had a sleep cut short or was torn down in its usage write, and otherwise leaves it final |
| JobRuns.AJobIsStranded | src/services/jobs.py:63-128 | for each of these three a reachable run of one job whose row stays running |
| JobMachine.Always | src/services/jobs.py:35-147 | the invariant tying each row, its background run and its POSTs holds in every reachable state of many interleaved jobs and pollers |
| JobMachine.RowsAreCoherent | src/services/jobs.py:63-147 | content iff succeeded, error iff failed, delivery traces only on final rows; a run that is over left a final status iff its completion did not end outside the taxonomy |
| JobMachine.DeliveryAgrees | src/services/jobs.py:85-147 | every POST ever made agrees with its row from then on, there are at most max(1, max_attempts), all but the last met a receiver out of reach, throttling or failing, and the row's count and delivery time are those of the POSTs once delivery is over unless its last POST crashed or the run was torn down after it |
| JobMachine.PushAgreesWithPoll | src/services/jobs.py:53-147 | in every reachable state the job's caller reads exactly what any POST of the job said |
| JobMachine.AcceptanceIsRemembered | src/services/jobs.py:35-51 | in every reachable state a job keeps its caller, prompt, callback and time of acceptance, and the model it was accepted with until a completion names its own |
| JobMachine.PollShows | src/repositories/jobs.py:21-32 | in every reachable state a poll shows only to its caller the id, the time of acceptance, the model, and, once delivery is over, the number of POSTs and the time of the last iff it was accepted; before that, or after a crash or teardown, no trace of a delivery |
| JobMachine.PollShowsTheResult | src/services/jobs.py:98-128 | from the step at which its completion ended on, a poll shows the content and model of the answer or the code and message of the error |
| JobMachine.FailureNamesTheModelAsked | src/services/jobs.py:106-112 | every payload that tells of a failure names the model that was asked for, or none |
| JobMachine.OneArrowAtATime | src/services/jobs.py:63-128 | a step moves a status by at most one arrow: pending to running, running to a final status |
| JobMachine.JobsOnlyMoveForward | src/repositories/jobs.py:86-103 | over any run no job is lost or changes hands, statuses only advance, and a final result is frozen |
| JobMachine.PollsAreConsistent | src/repositories/jobs.py:105-111 | a job answers its own caller at all times after acceptance and nobody else, and a later poll never contradicts an earlier one |

## Left out

- Completing.CompletionService.GuardedCall: takes no step of other requests between admission and report; its report half alone, Settle, allows any, and the interleavings are CompletionMachine.
- Completing.CompletionService.RunGuarded: takes no step of other requests during the loop; RetryIsARun proves this loop to be one of the runs of CompletionMachine, whose theorems cover the others.
- Completing.CompletionService.Complete: takes no step of other requests during the call, as RunGuarded does.
- Jobs.JobService.Execute: takes no step of other requests during the completion, as Complete does.
- Jobs.JobService.Run: runs one job without others in between; UndisturbedRunIsARun proves that to be one of the runs of JobMachine, whose theorems cover the others.
- JobMachine.Always: takes the outcome of a job's completion as given, so the breaker shared by many jobs' completions is covered by CompletionMachine and not again there.
- Signing.HeadersThatDoNotParse: Python's int() also accepts surrounding whitespace, underscores and non-ASCII digits, which ParseInt rejects; printing never produces any of them.
- Signing.SignatureBindsTimestampAndBody: SHA-256, HMAC and constant-time comparison are an arbitrary function, and binding is stated for messages that function tells apart.
- Completing.EveryFailureSpeaks: the model name quoted in the default message of a 404, string-valued details, response headers and durations are not modelled.
- JobModel.AssignCompletion: the column defaults `create` fills in for a transient row are set at construction, and the payload's model field on failure deliberately differs from the row.
- Floating-point rounding, NaN and infinities: reals are exact; a refill rate that is not positive is excluded, zero being a division error in the source.
- Deadlines.CompletionBudgetIff: for one given circuit that may open before the last attempt, the condition is proved sufficient and not necessary, since what that circuit then allows depends on its reset_timeout as well; over all circuits it is exact (AnyCircuitBudgetIff).
- Ids and randomness: job ids are assumed fresh, jitter is any value in [0, 1] where a bound needs it.
- The shape checks of upstream JSON and the extraction of upstream error text: a reply is a completion or unreadable.
- The Retry-After HTTP-date form (section 10.2.3 of RFC 9110), which the source ignores.
- PostgresJobRepository, prompt_for, SQL and migrations: the job store is an atomic map of rows whose updates always return; one that raises or is torn down would strand a job as well.
- Refusal by the limiter before a completion is entered (src/endpoints/completion.py:13-15): the limiter and the completions are modelled apart, and a refused request has no usage row.
- The body of a provider call (prompt, temperature, token limit), header names and content types: only what comes back is modelled.
- Routing, dependency wiring, middleware, logging, health probes, settings and API-key authentication.
- Several workers: breaker and buckets are per process in the source as well.
