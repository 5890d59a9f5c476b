# QueueFlow: a verified model

QueueFlow is a job queue over two stores that share no transaction. Postgres holds the truth about every job (`jobs`)
and one row for every recorded success (`job_effects`); Redis holds job ids on their way: the `pending` list, one
`processing` list per worker, the `delayed` sorted set and one heartbeat key per worker. Workers, schedulers and the
API write to both, may stop between any two writes, and a live worker may be declared dead because its heartbeat
lapsed. This project models that protocol and proves what survives of it, in two step systems over one state.

**The free system** (`Types`, `Database`, `System`). Every awaited SQL statement or Redis command is one step; a
transaction is one step. Any number of workers, schedulers and API processes take part, ids may repeat in lists, lists
may hold junk, any process may stop anywhere, heartbeats lapse at any time, and worker ids may be shared.
`Fencing` proves what the lease gives in every run, and accounts exactly for every recorded effect. `Duplicates`
exhibits a run that records one job twice although fencing is on. `Handoffs` counts promotions and submissions;
`QueueOrder` proves the order in which jobs are taken, `DueTimes` that schedulers read what is due, and `EarlyPromotion`
exhibits one that promotes early all the same; `RowHistory` traces rows to submits, starts to returns, and recoveries to
lapsed heartbeats, and counts attempts.

**The calm system** (`Calm`) takes the same steps under the rules the code is written for: a missing heartbeat means
the process has stopped; one scheduler, which reaps and sweeps between promotion passes; one reaper iteration, one
recovery of a worker's own list, one sweep and one replay are each one step, as is a failure's ZADD with the LREM behind
it; live processes do not share a worker id; a row whose submit has not pushed yet is too young for the sweep; only a
job held nowhere is replayed. Workers, the scheduler and submits may still stop between any two of their steps.
`CalmRefinement` proves that every calm run is a free run. `CalmSafety` proves the invariant of every job,
`CalmResults` draws the safety results and the attempt budget. `CalmStranded` isolates the one way to lose a job and traces
it to a retry cut short between its two writes. `CalmOutcome` proves that the handler decides how a job ends,
`CalmProgress` that every job that is not lost can be brought to that end without cutting any execution short, and
`CalmLimits` that the limits of these results are real.

**Loops and objects.** `Semaphores` is the semaphore class with the line of its waiters; `WorkerProcess` is one worker's
main loop, executions and drain under every interleaving of signals, replies and timers; `Recovery` holds the recovery
and promotion loops as imperative code over mutable stores; `Paging` and `Backoff` are the page walk and the delay.

A run is a sequence of steps, each enabled where it is taken; a statement about all runs is proved by induction on it.
The answers of the outside world are parameters of the steps: what a handler does, which rows a `LIMIT` returns among
equals, which keys a scan finds, what the clock says, what the random draw gives.

## Where the code and its description differ

- `db/schema.sql:112-120` says the lease keeps a job from being recorded twice. Three UPDATEs match on the id alone
  (`src/scheduler/index.ts:57`, `src/scheduler/reaper.ts:83-85`, `src/scheduler/reaper.ts:104`), and
  `Duplicates.TwoRecordsDespiteFencing` is a run with two records. `Fencing.EffectAccounting` says exactly when it
  happens, and `Fencing.AtMostOneEffect` and `CalmResults.RecordedExactlyOnce` give conditions under which it does not.
- `src/worker/index.ts:173-174` says that after a crash between the `retrying` UPDATE and ZADD the database still records
  that the job needs recovery. Nothing reads that record: `CalmLimits.WorkerStopLosesJob`,
  `CalmLimits.RejectedZaddLosesJob`, `CalmStranded.StrandedForever`. A job is lost exactly when the scheduler stops between
  ZREM and UPDATE or the reaper drops a listed id whose row says retrying (`CalmStranded.StrandedExactly`), and never
  unless a retry of it was cut short between its two writes (`CalmStranded.NeverStranded`).
- `src/scheduler/index.ts:47-51` says ZREM lets several schedulers run safely. It gives a retry to one of them only, but
  possibly to one whose batch is stale: `EarlyPromotion.PromotedEarly`. That takes a job that was parked again after the
  scheduler read: `DueTimes.EarlyOnlyIfParkedAgain`.
- `docs/internals.md:56` limits a job to `max_attempts`. A worker that comes back and recovers its own list never
  looks at the attempts: `CalmLimits.AttemptsUnbounded`. How far attempts go is determined by how often that happened to
  the job after its last attempt: `CalmResults.AttemptBudget`, `CalmResults.OverBudgetExactly`.
- `docs/api.md:29-37` presents the cursor as neither repeating nor dropping rows. Cut to milliseconds it does drop rows:
  `Paging.OneMillisecondSkipped`; `Paging.MissedExactlyWhenCutOff` says which.
- `src/shared/retry.ts:24` says a delay is never below the exponential floor. `Backoff.BelowFloor` is an input where it
  is; it never is if and only if the floor is whole or its fraction is a half or more: `Backoff.NeverBelowFloorExactly`. Lines
  14-17 say delays double; with units of a fraction of a millisecond they can stall: `Backoff.DelaysStall`, and exactly when
  they grow `Backoff.DelaysGrowExactly`.

## Model

| member | source | states |
|---|---|---|
| Fencing.FencedAlways | src/worker/index.ts:76-191 | In every free run with fencing on: leases in flight are distinct and never newer than their row's; an execution that still owns its row has recorded nothing; the effects of a job come in strictly increasing claim order, none from a claim still in flight |
| Fencing.RowNamesLatestClaim | src/worker/index.ts:76-95 | In every free run a row's lease is the one its latest successful claim was given, and it has none before the first claim |
| Fencing.LeaseGrows | src/worker/index.ts:76-83 | Over any continuation of a run, the lease of a row is only ever replaced by a newer one |
| Fencing.SupersededWritesNothing | src/worker/index.ts:109-191 | Once a newer claim exists, an older execution still in its handler or catch block changes neither table by settling, burying or parking, in any continuation, and its attempt to park leads to no ZADD; an execution whose parking UPDATE came before the newer claim is not covered and still sends its ZADD |
| Fencing.EffectAccounting | src/worker/index.ts:109-123 | In every free run the effects of a job number exactly one if it stands at succeeded, plus one for each promotion or reaper UPDATE that overwrote a success |
| Fencing.AtMostOneEffect | src/scheduler/reaper.ts:53-109 | If no handler throws and no row changes between a reaper's SELECT and UPDATE, each job has one effect if it succeeded and none otherwise, despite crashes, replays, false suspicion and duplicate entries |
| Fencing.SuccessIsAbsorbing | src/worker/index.ts:97-142 | In such runs no continuation takes a success back |
| Duplicates.TwoRecordsDespiteFencing | src/scheduler/index.ts:52-61 | A valid run with fencing on that records one job twice: a falsely suspected worker parks a retry, another worker succeeds, the retry is promoted all the same |
| Handoffs.PromotedAtMostOncePerZadd | src/scheduler/index.ts:45-61 | Over any interleaving of schedulers, promotion pushes of an id plus claims in hand plus the parked entry never exceed its ZADDs |
| DueTimes.ScoresAreDueTimes | src/worker/index.ts:195 | In every free run the score under which a job waits is the due time of its last ZADD |
| DueTimes.BatchIsDue | src/scheduler/index.ts:36-41 | In every free run each id of a batch a scheduler reads was last parked with a due time between 0 and the time of reading; one that is due and left out has a batch of 100 due no later before it |
| DueTimes.EarlyOnlyIfParkedAgain | src/scheduler/index.ts:45-53 | In every free run a retry that a scheduler's ZREM takes out was due when that scheduler read its batch, unless the job was parked again since |
| EarlyPromotion.PromotedEarly | src/scheduler/index.ts:45-53 | A valid run in which a scheduler that read at 5 takes out a retry due at 1000 |
| QueueOrder.StepMoves | src/worker/index.ts:356-361 | In every step of the free system pending is a line left at the front only, joined at its end by the ids that submits, promotions and replays push, and at its front by recovered and swept entries; the execution a worker starts is of the entry that left, and junk is only removed |
| QueueOrder.FirstInFirstOut | src/api/index.ts:91 | From any state on, while nothing is recovered or swept, the entries taken followed by those waiting are those that were waiting followed by those pushed, in order |
| RowHistory.RowsComeFromSubmits | src/api/index.ts:57-67 | In every free run each row was inserted by a submit with its id, and still has that submit's key and time and a budget of five |
| RowHistory.OneStartPerWait | src/worker/index.ts:76-90 | In every free run a handler is started for a job at most once for each time its row was put in waiting (queued or retrying), however often its id is listed |
| RowHistory.OnlyTheseReturn | src/worker/index.ts:175-181 | A row is put in waiting, or turned from one kind of waiting to the other, only by its submit, by its execution's park, by the reaper's and a promotion's UPDATE, from running by a recovery and from dead by a replay |
| RowHistory.AttemptsAreStarts | src/worker/index.ts:76-83 | In every free run a row counts exactly the starts of its job since a replay last found it dead |
| RowHistory.OnlyTheSilentAreRecovered | src/scheduler/reaper.ts:130-134 | In every free run a list is reaped, or recovered under its own name, only if its worker's heartbeat was never written or has lapsed since |
| Handoffs.SettledAlways | src/api/index.ts:60-95 | In every free run a key has at most one row, every submit that pushes or answered holds the job of its key's row, and a submit that lost the insert always finds that row |
| Handoffs.SameKeySameJob | src/api/index.ts:55-95 | Submits with one key that returned a job returned the same one; one row per key; the answer that a key is in use without its job is never given |
| Handoffs.OnePushPerKey | src/api/index.ts:60-91 | At most one submit push is made per key in any run, none before its row exists and none while another is outstanding |
| CalmSafety.StepKeepsCalm | src/worker/index.ts:361-393 | Every calm step keeps, for every job, its single place, the statuses that fit the place, what its execution knows of the row, and its record count |
| CalmSafety.CalmAlways | src/scheduler/index.ts:89-100 | These invariants, and those of the processes, hold in every state of every calm run |
| CalmResults.OnePlacePerJob | src/scheduler/reaper.ts:109 | A job id is never in two places nor twice in one list; a running job is in exactly one processing list; a parked one says retrying |
| CalmResults.SweepFindsOrphan | src/scheduler/reaper.ts:142-170 | A sweep of a calm run adds to pending exactly its candidates that are nowhere; its candidates are queued since before the cutoff; a job like that which is nowhere and no candidate has a batch of 100 rows at least as old before it |
| CalmResults.CandidatesAreOld | src/scheduler/reaper.ts:143-151 | The SELECT answers queued rows created before the cutoff, and leaves such a row out only for 100 at least as old |
| CalmResults.RecordedExactlyOnce | src/scheduler/index.ts:52-61 | With failing handlers, due retries and replays, each job is recorded exactly as often as it stands at succeeded, never twice |
| CalmResults.SuccessIsFinal | src/scheduler/index.ts:55-59 | No continuation of a calm run takes a success back; in particular no promotion revives it |
| CalmResults.AttemptBudget | src/worker/index.ts:76-83 | Attempts equal the claims since the last replay; and with k counting how often since then a restarted worker put the job back when it was out of attempts: for k = 0 they are at most max_attempts, less for a claimable row, equal for a dead one; for k > 0 they are max_attempts + k - 1 for a queued row, max_attempts + k for a running or succeeded one, one of the two for a dead one, and no row says retrying |
| CalmResults.OverBudgetExactly | src/worker/index.ts:252-267 | A running or succeeded job is over max_attempts if and only if that happened to it at least once, a queued one if and only if at least twice, a retrying one never |
| CalmResults.DeadAfterExactlyMaxClaims | src/scheduler/reaper.ts:78-96 | A job that was never put back when out of attempts is claimed at most max_attempts times and is dead only after exactly that many, even if it kills every worker |
| CalmStranded.StrandedForever | src/scheduler/reaper.ts:67-76 | A row that says retrying while its id is held nowhere stays so in every continuation |
| CalmStranded.OnlyTheseStrand | src/scheduler/reaper.ts:72-76 | A step strands a job if and only if it is the scheduler stopping between ZREM and UPDATE, or the reaper dropping a listed id of the job while its row says retrying, however it came to be there |
| CalmStranded.StrandedExactly | src/scheduler/reaper.ts:72-76 | After a run a job is stranded if and only if the run has such a step; nothing makes it good |
| CalmStranded.NeverStranded | src/worker/index.ts:175-195 | In a run in which no worker stops and no ZADD is rejected between the job's retrying UPDATE and its ZADD, and no scheduler stops between its ZREM and UPDATE, the job is never stranded, and a retrying one is always parked, being parked or being promoted |
| CalmOutcome.HandlerDecides | src/worker/index.ts:97-195 | If no execution is cut short, no replay steps in, and an abandoned job is neither granted an attempt beyond its last nor denied one it was put back for, then a job that ends is at succeeded exactly if its handler returns on an attempt that was open at the start: under way, within the budget, or next after a claimable row |
| CalmProgress.RecoverableUnlessStranded | src/scheduler/reaper.ts:43-116 | From every state of every calm run, whatever the handlers do on each attempt, a continuation that obeys them and stops no worker with an execution, abandons none and replays nothing brings the job to succeeded if its handler returns on an attempt still open to it, otherwise to dead, if and only if the job is not stranded |
| CalmProgress.NothingIsLost | src/worker/index.ts:76-195 | After every run in which no retry of the job was cut short between its two writes, such a continuation exists |
| CalmLimits.NeverFencedOut | src/worker/index.ts:115-142 | In a calm run an execution past its claim always holds its row's lease and the row says running, so no result is thrown away |
| CalmLimits.AttemptsUnbounded | src/worker/index.ts:251-267 | For every n some calm run claims one job n times, its worker restarting and recovering its own list each time |
| CalmLimits.WorkerStopLosesJob | src/worker/index.ts:175-195 | From every initial state a run strands the job in which retries are cut short only by a worker stopping between UPDATE and ZADD |
| CalmLimits.RejectedZaddLosesJob | src/worker/index.ts:392-399 | So does one in which they are cut short only by a ZADD that is rejected, the worker stopping later with nothing in its hands |
| CalmLimits.SchedulerStopLosesJob | src/scheduler/index.ts:52-61 | And one in which they are cut short only by a scheduler stopping between ZREM and UPDATE |
| CalmRefinement.CalmRunIsFree | src/scheduler/index.ts:141-154 | Every state a calm run reaches is reached by a free run, command by command |
| Semaphores.Semaphore.constructor | src/shared/semaphore.ts:12-17 | All permits are free and nobody waits |
| Semaphores.Semaphore.Create | src/shared/semaphore.ts:12-17 | A capacity below one is refused |
| Semaphores.Semaphore.Acquire | src/shared/semaphore.ts:19-26 | A free permit is taken at once, otherwise the caller is last in line; somebody waits only while no permit is free |
| Semaphores.Semaphore.Release | src/shared/semaphore.ts:28-38 | The permit goes to the first in line, else back to the pool, never above capacity |
| Semaphores.ServedInOrder | src/shared/semaphore.ts:8-44 | Under balanced use holders plus free permits are the capacity, inFlight counts the holders, and those served followed by those waiting are all callers in order of arrival |
| WorkerProcess.ProcessKept | src/worker/index.ts:349-406 | In every interleaving, executions plus the main loop's slot are inFlight and at most CONCURRENCY, and loop and drain agree |
| WorkerProcess.ListedExactly | src/worker/index.ts:370-401 | In every interleaving the processing list holds exactly the entries moved into it whose LREM has not been answered; an LREM of a job is answered only after its outcome was recorded; and an execution that is over has either done both or could not record, or could not remove |
| WorkerProcess.CleanDrain | src/worker/index.ts:274-303 | Whenever the drain deletes the heartbeat key, the loop has exited, no execution is left, and the entries still listed are exactly those whose outcome could not be recorded, whose LREM failed after it was, or whose BLMOVE reply was lost |
| WorkerProcess.NothingAfterDeletion | src/worker/index.ts:298-303 | After the deletion nothing of the process starts, moves an entry or beats again |
| Recovery.Redis.LremLast | src/scheduler/reaper.ts:49 | If the list holds the entry, exactly the occurrence with no other after it goes and the rest keeps its order, otherwise nothing changes; no other list changes |
| Lists.RemoveLastAt | src/scheduler/reaper.ts:63 | Removal with count -1 takes out exactly the occurrence nearest the tail |
| Lists.RemoveFirstAt | src/worker/index.ts:393 | Removal with count 1 takes out exactly the occurrence nearest the head |
| Recovery.Redis.LmoveRightRight | src/scheduler/reaper.ts:109 | Moves the tail to pending's tail, or reports an empty list and changes nothing |
| Recovery.ReapEntry | src/scheduler/reaper.ts:48-115 | One iteration removes exactly the tail and does to row and pending what the verdict on that entry says |
| Recovery.ReapWorker | src/scheduler/reaper.ts:33-119 | The loop ends with the list empty and the rows, pending and count of the fold over the list; other lists are untouched |
| Recovery.ReapFoldExact | src/scheduler/reaper.ts:43-118 | The fold appends the recoverable entries in reverse, queues their rows, buries exhausted ones, leaves every other row and every attempt count, lease and key alone, and counts requeued entries plus buried jobs, with repeated and malformed entries |
| Recovery.MoveAll | src/worker/index.ts:263-267 | Appends the reversed list to pending and counts its entries |
| Recovery.RecoverOwnProcessing | src/worker/index.ts:242-270 | Nothing is touched while the name is occupied; otherwise rows, list and pending are those of the specification, and the result counts what was moved |
| Recovery.TwoPathsAgree | src/worker/index.ts:252-267 | A restarted worker and the reaper leave the same rows, list and pending if and only if each entry is an id whose row is queued or running with an attempt left |
| Recovery.ReapDead | src/scheduler/reaper.ts:123-138 | Exactly the scanned lists without a heartbeat end empty, all others are untouched, and rows, pending and count are those of the one fold over all their entries, first scanned first |
| Recovery.DeadListsArePushed | src/scheduler/reaper.ts:123-138 | By that fold every entry of every such list that is queued or running with an attempt left is pending afterwards, and its row queued |
| Recovery.IdsHeldByRedis | src/scheduler/reaper.ts:22-30 | An entry is in the result if and only if it is in pending or in one of the scanned lists |
| Recovery.SweepOrphans | src/scheduler/reaper.ts:142-170 | A candidate in pending or in a scanned list occurs in pending as often as before, any other as often as it was named, everything else as before; the pushed ones stand in order behind what was there |
| Recovery.PromoteOne | src/scheduler/index.ts:52-61 | Whoever takes the id out of the set queues its row and pushes it; nobody else changes anything |
| Recovery.PromoteDue | src/scheduler/index.ts:35-68 | An undisturbed pass takes out exactly its batch: ids with scores from 0 to now, leaving such an id behind only for 100 with scores no higher; it queues exactly those rows and leaves pending so that all that was there is taken first, then the batch, an earlier due job before a later one |
| Recovery.EarliestDueFirst | src/scheduler/index.ts:40-61 | For every batch with the lowest scores, pushing its ids one by one at pending's head leaves what was pending nearest the tail, holds each id of the batch, and of two of them the one due earlier nearer the tail |
| Backoff.DelayBounds | src/shared/retry.ts:26-29 | For every attempt and draw the delay lies within half a millisecond of the interval from the floor to 1.3 times it, the floor being 2^attempts units while that is below the cap, and the cap from there on |
| Backoff.DefaultDelays | src/shared/retry.ts:16-17 | The documented examples: 2 s, 32 s, and 60 s from the sixth attempt on before jitter |
| Backoff.NeverBelowFloorExactly | src/shared/retry.ts:24-29 | No draw puts the delay below its floor if and only if the floor is whole or its fraction is a half or more |
| Backoff.BelowFloor | src/shared/retry.ts:24-29 | With a unit of 0.2 ms and no jitter the first delay is 0 ms, below its floor of 0.4 ms |
| Backoff.DelaySpreads | src/shared/retry.ts:19-22 | Every whole millisecond from the floor up to 1.3 times it is the delay of some draw |
| Backoff.DelaysGrowExactly | src/shared/retry.ts:14-17 | Below the cap each delay exceeds the one before it, whatever the draws, if and only if 1.3 floors and a half do not exceed the next floor, rounded |
| Backoff.DelaysGrow | src/shared/retry.ts:14-17 | A floor of 10/7 ms, which a unit of a millisecond gives from the first failure on, is enough for that |
| Backoff.DelaysStall | src/shared/retry.ts:14-17 | With a unit of 0.1 ms the first two delays can both be 0 ms |
| Backoff.TotalWaitBounds | src/shared/retry.ts:26-29 | The waits of a life of m attempts add up to at most 1.3 (2^m - 2) units plus (m - 1)/2 ms of rounding, and to at least (2^m - 2) units less that rounding if the cap is not reached |
| Backoff.TotalWaitCapped | src/shared/retry.ts:8-9 | The waits add up to at most their number times 1.3 caps, rounded, and, from the first attempt whose floor reaches the cap, to at least one cap, rounded, for each |
| Paging.ParseLimit | src/api/params.ts:9-19 | An accepted limit lies between 1 and 100 |
| Paging.LimitAccepted | src/api/params.ts:9-19 | A missing limit, read as 20, and every whole number from 1, clamped at 100, are accepted, and nothing else |
| Paging.BuildQuery | src/api/index.ts:159-174 | The conditions with their numbered parameters hold of exactly the rows the filters want, and the last parameter is the limit plus one, whichever filters are given |
| Paging.FetchPage | src/api/index.ts:173-193 | The page is the first rows the filters want, with a cursor made of its last row exactly when more follow |
| Paging.GetJobs | src/api/index.ts:153-193 | A request is answered exactly when status and cursor are each missing or well formed, and the limit missing or a whole number from 1; with what these say - 20 for a missing limit, at most 100, no filter for a missing status, the cursor sent for a cursor - the answer is that page of the table |
| Paging.PageExactly | src/api/index.ts:167-192 | A page shows only rows of the table with the status and below the cursor asked for, newest first, at most as many as the limit; what else it should have shown comes after all of these, and exactly then there is a next cursor: the last row's time cut to the millisecond, and its id |
| Paging.WalkDescends | src/api/index.ts:167-192 | However the table changes between pages, the walk shows rows in strictly descending order, none twice |
| Paging.MissedExactlyWhenCutOff | src/api/index.ts:185-192 | Of the rows there all along, a finished walk misses exactly those after some page's last row that the cursor cut from that row shuts out |
| Paging.MissedSharesMillisecond | src/api/index.ts:185-192 | A missed row shares a millisecond with a page's last row and comes after it |
| Paging.OneMillisecondSkipped | src/api/index.ts:192 | Two rows of one millisecond, one to a page: the walk finishes and never shows the older |
| Paging.WalkStaysInOriginal | src/api/index.ts:159-171 | Newer rows inserted after the walk began are never shown |
| Paging.WholeMillisecondsMissNothing | src/api/index.ts:159-193 | With whole-millisecond creation times a finished walk shows exactly the wanted rows of the table it began on, each once, in order, whatever newer rows are inserted meanwhile |
| Paging.WalkEnds | src/api/index.ts:173-193 | The walk over n wanted rows is finished after n / limit pages, rounded up, however many newer rows are inserted meanwhile |

## Left out

- The dashboard, the demo receiver, migration, process spawning, logging, health and worker listings: no protocol state.
- Authentication and payload checks; `GET /jobs/:id` and the text of error answers.
- Handlers: a handler returns or throws, nondeterministically; its network calls are not modelled.
- Clocks and TTLs: a lapsing heartbeat, a due retry and a cutoff are guards or parameters of steps; `started_at`,
  `completed_at`, `next_run_at` and `last_error` are not kept.
- The wait loop of `recoverOwnProcessing` before it looks at the heartbeat: its last answer is a parameter.
- Loss of Redis data, failed commands inside a reaper or scheduler pass other than by stopping there, and COMMITs of
  unknown outcome.
- `FENCING=off`: the flag is part of the state, but no result about it is stated.
- UUIDs are numbers, so that one job could be named in two spellings (as a replay request may) is not represented;
  `scanKeys` is the set of keys it finds; JSON and base64 of a cursor are an opaque pair.
- `Effect.claim` is not a column of `job_effects`: it remembers which claim an effect came from, so that order can be
  stated.
- A fair schedule: `CalmProgress` shows that a finishing continuation exists from every state; it does not say that every
  schedule takes it. A sweep in particular may keep seeing the same hundred older queued rows. The continuation finishes
  executions in flight, restarts or reaps stopped workers, and then lets worker 0 do the work; it may drop another job's
  listed retry where that is the only way to bury this one.
- WorkerProcess.ProcessKept: Redis and Postgres are reduced to the replies they send this process; a second signal and
  SIGKILL end it at once.
- Recovery.ReapWorker: stated for lists nothing else touches meanwhile; interference is the subject of the step systems.
- Paging.GetJobs: the table is handed over in descending order, as the index delivers it, and the three values are
  already parsed as texts.
