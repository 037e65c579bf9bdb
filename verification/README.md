# OJS Rust SDK: verified models

This project models the algorithms of the Open Job Spec Rust SDK in Dafny and proves what they
promise: the worker's concurrent run loop, the durable replay log, the incremental parser of the
event stream, civil-date and timestamp arithmetic, the retry loop with its backoff, the middleware
chain, the workflow compiler, the in-memory job store and the name validators.

`dafny verify dfyconfig.toml` checks everything.

## How it is built

Code that changes things step by step is a class or a method with a loop, and its contract ties
the new state to a function of the old one. What the code promises is then proved about that
function, for every input, every run or every interleaving.

| files | models |
|---|---|
| `WorkerModel`, `WorkerInvariant`, `WorkerTheorems`, `WorkerProgress`, `WorkerHistory`, `WorkerLoop` | `src/worker.rs` as a state machine over atomic steps of the fetch loop, the heartbeat and any number of job tasks; its invariant; what holds on every run, what can still be reached, and what the steps of a run say of its end; a class that takes the same steps on its fields, and `start` as a program of loops under interference |
| `Durable` | `now`, `random` and `side_effect` of `src/durable.rs`, handlers, crashes and resumes |
| `LineParser`, `Sse`, `SseRoundTrip`, `SseStandard` | the parsing task of `src/subscribe.rs` against a parser of the whole input; a printer and the exact round trip; the line rules of the WHATWG HTML Living Standard, section 9.2.6, and the exact streams on which they give the same events |
| `Civil`, `Timestamp` | `days_to_date` and the text of `chrono_now` in `src/recorder/mod.rs`, against the Gregorian calendar (RFC 3339, section 5.7 and Appendix C) |
| `Backoff`, `Retry` | `compute_backoff` and the loop in `HttpTransport::request` |
| `Middleware` | the chain operations and `wrap` of `src/middleware.rs` |
| `Workflow` | option resolution and `to_wire` of `src/workflow.rs` |
| `FakeStore` | `FakeStore` of `src/testing.rs` |
| `Names` | the two validators of `src/client.rs` |
| `Options`, `Numbers`, `Text`, `Decimal` | optional values, minimum, splitting and joining texts, decimal printing |

### The worker machine

A step is one access to a shared field: taking a permit, adding to or subtracting from
`active_count`, inserting into or removing from `active_jobs`, spawning, dropping a permit, a load
or store of `state`, the two halves of a request. Everything the server, the clock, the scheduler
or the operating system decides is a choice of the next step, so a theorem about all runs is a
theorem about all interleavings. What the server is trusted with is a parameter (`Trust`):
`honest`, it returns no more jobs than asked for; `unique`, it returns no job that this worker is
still working on. Theorems that need neither hold for both values, and where one is needed a
lemma shows a run on which the property fails without it.

`WorkerLoop.Worker.Start` is written as the source is, with its nested loops and early exits. Any
steps of the other threads may come between two of its accesses, and each access is proved to be
a step that the machine can take at that point.

### Where the code and its documentation differ

The model follows the code.

* `src/middleware.rs:93` and `:101` call the end of the list the outermost position and the
  beginning the innermost one. `wrap` makes the first layer the outermost, as its own comment says
  (`Middleware.TraceIsPath`).
* The state diagram of the repository's `README.md` has `Running` and `Quiet` go to `Terminate` on
  ctrl+c. A signal that ends one of the loop's waits leaves the state as it is
  (`WorkerTheorems.LeavesInTerminateExactly`, `WorkerTheorems.SignalDuringWait`). The diagram has
  no way back from `Terminate`; a later quiet directive overwrites it, and nothing else does
  (`WorkerTheorems.TerminateCanBeOverwritten`, `WorkerTheorems.TerminateHoldsExactly`).
* `src/rate_limiter.rs:103` describes a jitter that can reach the clamped delay; the remainder
  never does, unless the delay is 0 (`Backoff.DelayRange`).
* `src/durable.rs:260` says a side effect runs exactly once. For any handler, over all lives of a
  job together, exactly one question is asked per logged position if and only if every life keeps
  its whole log and no side effect fails (`Durable.AskedExactly`); an entry that a crash kept from
  being logged is asked for again (`Durable.LostEntryIsAskedAgain`).
* `src/durable.rs:6-8` says that a run after a crash sees identical values. That holds for a kept
  log if and only if no error came before its last entry (`Durable.ResumesExactly`,
  `Durable.SwallowedErrorBreaksReplay`).

## Model

| member | source | states |
|---|---|---|
| WorkerInvariant.StepKeepsInv | src/worker.rs:524-651 | every step of loop, tasks and heartbeat keeps permit conservation, the exact count, job conservation, one report per job and a tracked set without strangers |
| WorkerInvariant.TaskStepKeepsCounted | src/worker.rs:594-601 | a task's own steps, panics included, keep free plus held permits equal to the concurrency and the count equal to the charged tasks |
| WorkerInvariant.SpawnKeepsCounted | src/worker.rs:572-603 | a spawned task takes over exactly the permit and the increment the loop held for it |
| WorkerInvariant.AdmitKeepsConserved | src/worker.rs:560-604 | fetching and admitting neither lose nor duplicate nor reorder a job |
| WorkerInvariant.AdmitKeepsBudget | src/worker.rs:547-580 | the room seen by the capacity check still suffices for the whole batch when the server kept to the count asked for |
| WorkerInvariant.StepKeepsBudget | src/worker.rs:547-604 | no other step eats into that room: the count only falls between the check and the admission |
| WorkerInvariant.AdmitKeepsListed | src/worker.rs:576-603 | a job is in `active_jobs` before its task exists and ids of jobs in flight stay distinct |
| WorkerInvariant.TaskStepKeepsListed | src/worker.rs:594-599 | the cleanup of one job removes no other job in flight from `active_jobs` |
| WorkerInvariant.StepKeepsSafe | src/worker.rs:479-651 | every step keeps the whole invariant, with what an honest and a non-repeating server add |
| WorkerInvariant.HoldersAgainstCharged | src/worker.rs:594-601 | permits and count differ exactly by the tasks between decrement and drop and by the panicked ones |
| WorkerInvariant.CountWitness | src/worker.rs:594-601 | a class of tasks is counted above 0 exactly when some task is in it |
| WorkerTheorems.RunKeepsSafe | src/worker.rs:450-658 | the invariant holds after every run, of any length and interleaving |
| WorkerTheorems.ReachableIsSafe | src/worker.rs:450-658 | every state reachable from a fresh worker satisfies the invariant |
| WorkerTheorems.PermitsAndCount | src/worker.rs:468-604 | whatever batch sizes the server returns, free plus held permits equal the concurrency, the count is the tasks between increment and decrement plus the panicked ones, at most `concurrency` handlers run, and without panics the count never exceeds the held permits |
| WorkerTheorems.QuiescentWorker | src/worker.rs:594-601 | at rest all permits are back, the count is the number of panics, only panicked ids are still listed, and without panics count and set are empty |
| WorkerTheorems.JobsConserved | src/worker.rs:571-761 | the fetched jobs are, in order, the tasks and then the batch in hand; each task is open, reported or broken; a report is made once, of the kind the recorded outcome asks for, and never by a panicked task |
| WorkerTheorems.HeartbeatListsJobsInFlight | src/worker.rs:484-491 | every snapshot lists every job from before its spawn until after its report returned, and nothing that is neither in flight nor panicked |
| WorkerTheorems.CleanupKeepsListedExactly | src/worker.rs:594-599 | a cleanup leaves the other jobs in flight listed if and only if none of them has the same id |
| WorkerTheorems.LosesListingExactly | src/worker.rs:571-603 | for any server and any step of any thread, a job in flight drops out of the list if and only if the step is the cleanup of a job whose id another one in flight shares |
| WorkerTheorems.RepeatedIdIsUnlisted | src/worker.rs:486-599 | a server that hands out an id twice gets a heartbeat that omits a running job |
| WorkerTheorems.BlockedExactly | src/worker.rs:547-601 | for any server, a blocked admission waits for a job that has made its report and its decrement if and only if the count without the panicked is below the concurrency |
| WorkerTheorems.BlockedAcquire | src/worker.rs:547-601 | with an honest server, admission blocks only while some permit holder has made its report and its decrement |
| WorkerTheorems.OverfullBatchBlocks | src/worker.rs:571-580 | with more jobs than asked for, admission can block on a job that has reported nothing |
| WorkerTheorems.HolderCanRelease | src/worker.rs:589-603 | any permit holder can drop its permit by its own steps alone, in exactly the number of steps it has left |
| WorkerTheorems.RunCanGoOn | src/worker.rs:524-651 | no deadlock: a run that has not stopped can go on without signal or heartbeat, and a blocked admission within six steps of one task |
| WorkerTheorems.DrainEndsExactlyWhenReported | src/worker.rs:628-631 | the shutdown loop ends on the count if and only if every job ever fetched has been reported and uncounted |
| WorkerTheorems.CleanExit | src/worker.rs:579-651 | after an exit before the deadline every fetched job has one task, reported exactly once as its recorded outcome asks, and nothing panicked |
| WorkerTheorems.StepAfterStop | src/worker.rs:496-560 | once stopping, no step makes room for a further fetch |
| WorkerTheorems.AtMostOneMoreFetch | src/worker.rs:496-560 | on any run the state never returns to Running, and after the first store or the signal at most the one fetch that was past its checks is sent |
| WorkerTheorems.DrainIsFinal | src/worker.rs:623-651 | after the fetch loop is left no run fetches, admits or drops a job |
| WorkerTheorems.LeavesInTerminateExactly | src/worker.rs:526-566 | the state is Terminate when the loop is left, except exactly if a signal ends a wait in another state |
| WorkerTheorems.SignalDuringWait | src/worker.rs:606-651 | a run that stops cleanly after a signal with the state still Running |
| WorkerTheorems.LosesTerminateExactly | src/worker.rs:496-529 | a step takes the state out of Terminate if and only if it stores a quiet directive |
| WorkerTheorems.TerminateHoldsExactly | src/worker.rs:493-560 | a run reads Terminate throughout if and only if no quiet directive arrives, and then sends at most the one fetch that was past its checks |
| WorkerTheorems.TerminateCanBeOverwritten | src/worker.rs:493-543 | a run on which a terminate directive is lost to a later quiet directive and the loop keeps polling |
| WorkerTheorems.RunKeepsRoom | src/worker.rs:547-560 | whatever the server returned before, no request asks for more jobs than the concurrency leaves room for, as long as the count does not wrap around in 64 bits |
| WorkerTheorems.BrokenStays | src/worker.rs:589-603 | the number of panicked tasks never falls |
| WorkerTheorems.PanicsStarveTheWorker | src/worker.rs:547-604 | after `concurrency` panics no run on which the count does not wrap sends another fetch, and after one panic no run at all ends cleanly |
| WorkerProgress.CleanExitExactly | src/worker.rs:524-651 | unless the deadline has ended it, a worker can still come to a clean exit if and only if no handler has panicked |
| WorkerProgress.FetchesAgainExactly | src/worker.rs:524-604 | a worker can still send a fetch if and only if fewer than `concurrency` handlers have panicked and it is past its checks or neither stopping nor leaving |
| WorkerProgress.CleanExitFrom | src/worker.rs:524-651 | from every state without panics the worker's own steps and the signal lead to a clean exit |
| WorkerProgress.FetchFrom | src/worker.rs:524-604 | from every state that allows it the worker's own steps lead to a request, with no job fetched on the way |
| WorkerProgress.TerminateTakesEffect | src/worker.rs:532-651 | from any state in Terminate that is not stopped, loop and tasks alone, without signal, heartbeat or further jobs, reach the shutdown loop, and reach a clean exit if and only if no handler has panicked |
| WorkerProgress.TerminateLeavesTheLoop | src/worker.rs:532-604 | the same way out of the fetch loop from every state in Terminate, panics or not |
| WorkerProgress.DrainsOut | src/worker.rs:628-631 | from the shutdown loop and without panics, tasks and loop alone come to a clean exit |
| WorkerProgress.BatchAdvances | src/worker.rs:571-603 | while jobs are in hand the loop or a permit holder can take a step that brings them further |
| WorkerHistory.TaskHistory | src/worker.rs:589-761 | on any run the steps of a task are a prefix of one of three lives (unhandled, handled, panicked) in source order, and its calls are the one report that the handling's end in that run asks for: ack exactly after Ok, a retryable nack after any error but NonRetryable, a final nack after that or without a handler, none before or after a panic; its handler runs exactly between being found and ending |
| WorkerHistory.CleanExitReports | src/worker.rs:623-761 | after a clean exit every fetched job was reported exactly once, with an ack exactly if its handler returned Ok in that run |
| WorkerHistory.StateAfterExactly | src/worker.rs:496-529 | a step stores Quiet exactly for the quiet directive, Terminate exactly for the terminate directive or by the loop, and else leaves the state; the flag goes up by the signal only |
| WorkerHistory.StateIsLastStore | src/worker.rs:461-529 | on any run the state is what the last directive or store said, and the flag is up exactly if the signal came |
| WorkerHistory.EndsForAReason | src/worker.rs:513-654 | on any run the fetch loop is left only after the signal or a terminate directive, the worker is given up exactly by its deadline, and the heartbeat is over exactly if the worker stopped or it saw the signal |
| WorkerHistory.HeartbeatAfterExactly | src/worker.rs:483-517 | a beat sends the ids read at that moment, its answer makes the heartbeat idle again, and only its own steps and the worker's stop change it |
| WorkerHistory.CapacityCheckExactly | src/worker.rs:547-559 | the check waits if the count reaches the concurrency, and else asks for the difference, at most ten |
| WorkerHistory.RequestIsRoomRead | src/worker.rs:547-560 | on any run a request asks for exactly min(concurrency - count, 10) jobs, of the count its check read |
| WorkerLoop.Worker.constructor | src/worker.rs:458-522 | a fresh worker is Running with count 0, no jobs and all permits free |
| WorkerLoop.Worker.Poll | src/worker.rs:524-566 | checks, capacity, request and waits, on the fields, do what the machine's polling step does and keep the invariant |
| WorkerLoop.Worker.Admit | src/worker.rs:560-613 | answer and admission, on the fields, do what the machine's admission step does and keep the invariant |
| WorkerLoop.Worker.Drain | src/worker.rs:628-654 | the shutdown loop, on the fields, does what the machine's step does and keeps the invariant |
| WorkerLoop.Worker.RunTask | src/worker.rs:589-603 | a job task's step, on the fields, does what the machine's step does and keeps the invariant |
| WorkerLoop.Worker.Heartbeat | src/worker.rs:484-516 | the heartbeat's step, on the fields, does what the machine's step does and keeps the invariant |
| WorkerLoop.Worker.Replay | src/worker.rs:450-658 | any interleaving of single steps, carried out on the fields, ends in the machine's final state, which is reachable and safe |
| WorkerLoop.Worker.Step | src/worker.rs:450-658 | one step of any thread on the fields continues the run recorded so far |
| WorkerLoop.Worker.Yield | src/worker.rs:479-519 | whatever the other threads do between two accesses continues the run and leaves the loop where it is |
| WorkerLoop.Worker.Wait | src/worker.rs:539-542 | a wait ends in the next iteration or, by the signal, in the shutdown loop |
| WorkerLoop.Worker.Fetch | src/worker.rs:558-568 | one request is sent, and the jobs of its answer are the ones then admitted |
| WorkerLoop.Worker.AdmitJob | src/worker.rs:571-603 | acquiring, counting, inserting and spawning in this order admit the job, under any interference; it is held up only while no permit is free |
| WorkerLoop.Worker.AdmitBatch | src/worker.rs:571-604 | the jobs of a batch are admitted one by one in order |
| WorkerLoop.Worker.FetchLoop | src/worker.rs:524-621 | the loop with its checks, early exits and waits takes machine steps only, and leaves for the shutdown loop |
| WorkerLoop.Worker.DrainLoop | src/worker.rs:628-651 | the loop over count, deadline and pause takes machine steps only, and ends stopped |
| WorkerLoop.Worker.Start | src/worker.rs:450-658 | under any interference `start` takes a run of the machine from the initial state to a stop, or as far as it is followed; a clean stop means every fetched job was reported |
| Durable.DurableContext.constructor | src/durable.rs:68-75 | a new context has an empty log and cursor 0 |
| Durable.DurableContext.WithReplay | src/durable.rs:82-89 | a resumed context starts at the front of the given log |
| Durable.DurableContext.GetNow | src/durable.rs:212-230 | replays a matching entry without the clock, else records the reading at the end of the log |
| Durable.DurableContext.GetRandom | src/durable.rs:237-258 | replays a matching entry without the generator, else records the bytes at the end of the log |
| Durable.DurableContext.RunSideEffect | src/durable.rs:265-291 | replays an entry of the same type and key without the closure, else runs it and records its value; a failure changes nothing |
| Durable.AttemptStaysOnTrack | src/durable.rs:212-291 | for handlers that stop at their first error, at every point of every attempt on a log that fits: the log extends the given one, fits the handler, and holds exactly the values seen |
| Durable.RequestExactly | src/durable.rs:212-291 | for every handler, log, world and request of an attempt: the entry at the cursor answers if and only if it has the type of the request and, for a side effect, its key; otherwise the world does, and the answer is logged with position, type and key unless it is a failed side effect |
| Durable.OtherKeyIsNotReplayed | src/durable.rs:271-277 | a log with the receipt of one key, on which the request for another key is asked anew |
| Durable.ReplayConsumesLog | src/durable.rs:212-291 | for any handler, while the entries answer its requests an attempt returns them in order and samples nothing |
| Durable.ResumeIsDeterministic | src/durable.rs:77-291 | for every handler, crash point and kept prefix with no error among the outcomes it stands for, at every point of the rerun in any world: the logged requests get their first values, nothing is sampled before the prefix is used up, and it is only extended |
| Durable.ResumesExactly | src/durable.rs:77-291 | for every handler, crash point and kept prefix, the rerun sees the first values again without sampling if and only if no error is among the outcomes the kept entries stand for |
| Durable.StoppingHandlersQualify | src/durable.rs:265-291 | a handler that stops at its first error never has an error among them |
| Durable.ReplaysWholeLogExactly | src/durable.rs:212-291 | for every handler and log, the log is replayed to its end without sampling if and only if each entry answers what the handler asks at that point |
| Durable.FirstAttempt | src/durable.rs:212-291 | a first attempt of any handler asks once per request, and up to its first error the log records exactly what was asked and seen |
| Durable.LostEntryIsAskedAgain | src/durable.rs:279-290 | a request whose entry was not kept is sampled again, and the new world's answer is seen |
| Durable.ResumeOnAnsweringLog | src/durable.rs:212-291 | for any handler, a log that answers all its requests is returned in order before anything is sampled, and is only extended |
| Durable.FinishedHandlerReplaysWhole | src/durable.rs:212-291 | a finished run is reproduced whole, with nothing sampled and the same log, if and only if it saw no error |
| Durable.AfterIsCoherent | src/durable.rs:212-291 | for handlers that stop at their first error, after any number of crashes and resumes entry `i` has `seq` `i` and records the handler's request at that point |
| Durable.SurvivingLogsAreExactlyCoherent | src/durable.rs:82-291 | for handlers that stop at their first error, a log can be left behind by crashes and resumes if and only if it fits the handler |
| Durable.EachPositionRecordedOnce | src/durable.rs:212-291 | for handlers that stop at their first error and lives that keep their logs, each log extends the earlier ones, the last log is all that was ever pushed, and the pushed entries carry the positions 0, 1, 2, ... in order |
| Durable.AskedInOneLife | src/durable.rs:212-291 | one life of any handler asks once for every entry it adds and once for every side effect that fails |
| Durable.AskedExactly | src/durable.rs:212-291 | for any handler and lives, clock, generator and closures were asked at least once per logged position and failure, exactly so if and only if every life kept its log, and exactly once per position if and only if also nothing failed |
| Durable.PushedIsLogExactly | src/durable.rs:222-289 | for any handler, the log holds all entries ever pushed, once and in order, if and only if every life kept its log |
| Durable.LogsExtend | src/durable.rs:82-291 | for any handler, while every life keeps its log each log extends all earlier ones |
| Durable.FailsAtMostOnce | src/durable.rs:279 | a handler that stops at its first error sees at most one failure in each life |
| Durable.SwallowedErrorBreaksReplay | src/durable.rs:279-290 | a handler that goes on after a failed side effect, whose resume on its own log gives a different time |
| LineParser.ChunkInvariance | src/subscribe.rs:79-129 | for every stream and every way to cut it, chunk by chunk parsing gives the events, state and leftover of parsing the whole |
| LineParser.ParseInPieces | src/subscribe.rs:93-97 | parsing may stop anywhere and go on with the leftover in front |
| LineParser.ParseLinesConcat | src/subscribe.rs:95-128 | events of consecutive lines follow each other and state is passed on |
| Text.SplitConcat | src/subscribe.rs:93-97 | cutting a text anywhere cuts one line in two and changes no other |
| Sse.TrimStart | src/subscribe.rs:116-120 | the value of a field is what is left after the white space in front, and only white space, is removed |
| Sse.WhitespaceIsUnicode | src/subscribe.rs:116-120 | what is trimmed are the 25 code points of the Unicode property White_Space |
| Sse.Subscription.constructor | src/subscribe.rs:79-84 | the parser starts where the reference parser starts |
| Sse.Subscription.Dispatch | src/subscribe.rs:99-114 | a blank line sends the collected event, `message` by default, and clears what it used; without data it clears the type only; it ends the parsing when the receiver is gone |
| Sse.Subscription.HandleField | src/subscribe.rs:115-127 | any other line sets type or id, or sets or extends the data, and sends nothing |
| Sse.Subscription.HandleLine | src/subscribe.rs:99-127 | one line has the reference parser's effect |
| Sse.Subscription.TakeFront | src/subscribe.rs:95-97 | taking one line off the buffer loses no event of the input |
| Sse.Subscription.Receive | src/subscribe.rs:87-129 | after a chunk the parser is where the parser of the whole input is, or has sent exactly what the receiver took |
| Sse.Subscription.Consume | src/subscribe.rs:79-129 | the same after any chunks: events, pending fields and buffer depend on the stream, not on its cuts |
| SseRoundTrip.ParsePrinted | src/subscribe.rs:95-128 | printed events come back with trimmed values, default type, and data lines joined by line feeds after the leading empty ones |
| SseRoundTrip.ParseEvent | src/subscribe.rs:95-128 | one printed event is received independently of what came before |
| SseRoundTrip.AbsorbFromEmpty | src/subscribe.rs:119-127 | extending the data line by line is joining all lines after the leading empty ones |
| SseRoundTrip.ReceivedExactly | src/subscribe.rs:99-127 | an event is received as it was if and only if its type and first data line are not empty and no value starts with white space |
| SseRoundTrip.ParsedAreOneLine | src/subscribe.rs:95-128 | no event ever parsed has a line feed in its type or id |
| SseRoundTrip.RoundTripExactly | src/subscribe.rs:95-128 | for every list of events, printing and parsing gives the list back if and only if each event has single-line type and id and is well formed in that sense |
| SseStandard.SameEventsExactly | src/subscribe.rs:95-128 | for every stream of LF-terminated lines, the code sends the events that section 9.2.6 of the standard asks for if and only if in every block with data all data lines have a colon and no second white space, the first is not empty, and name and id are kept |
| SseStandard.SameLinesExactly | src/subscribe.rs:95-128 | the same for a list of lines from any pending ids, and the code never sends more events than the standard |
| SseStandard.BlockKeptExactly | src/subscribe.rs:99-114 | one block sends the same for both if and only if it has no data or data, name and id are kept |
| SseStandard.DataKeptExactly | src/subscribe.rs:119-127 | the data is the standard's if and only if all data lines are plain and the first is not empty |
| SseStandard.NameKeptExactly | src/subscribe.rs:103-116 | the name is the standard's if and only if the last event field is plain, or has no colon and comes after no other name |
| SseStandard.ClassifiedAs | src/subscribe.rs:115-127 | in terms of the standard's fields, the code reads only those with a colon and one of three names, and trims their values |
| SseStandard.ParseBlock | src/subscribe.rs:95-128 | at the end of a block both hold the last name, the last id and all data of its lines, each by its own rules |
| Civil.YearOfEraInverts | src/recorder/mod.rs:133 | the three corrections find the year of every day of a 400-year era |
| Civil.YearStartsBefore | src/recorder/mod.rs:133-135 | the subtraction for the day of the year never underflows |
| Civil.MonthLengths | src/recorder/mod.rs:136-138 | the divisions by 153 and 5 cut the year into months of the calendar's lengths |
| Civil.EpochDay | src/recorder/mod.rs:128-141 | day 0 is 1970-01-01 |
| Civil.DaysToDateSteps | src/recorder/mod.rs:128-141 | for every day number, the next number gives the Gregorian next day |
| Civil.DayNumberInverts | src/recorder/mod.rs:128-141 | every result is a valid date since 1970, and counting its days by years and months gives the input |
| Civil.DaysToDateInverts | src/recorder/mod.rs:128-141 | every valid date since 1970 is the result for its day number |
| Civil.DatesFollowDays | src/recorder/mod.rs:128-141 | dates are ordered exactly as day numbers |
| Civil.FollowingTheCalendar | src/recorder/mod.rs:127-141 | whatever starts at the epoch and follows the calendar is inverted by counting days |
| Civil.NextDayCounts | src/recorder/mod.rs:127-141 | the next day of a valid date is valid and has the next day number |
| Timestamp.FormatReads | src/recorder/mod.rs:105-125 | a formatted timestamp has the shape yyyy-mm-ddThh:mm:ssZ of RFC 3339, with more year digits only from year 10000 on, and reading it gives back its date and time |
| Timestamp.ClockCountsSeconds | src/recorder/mod.rs:111-119 | date and time together are exactly the input seconds |
| Timestamp.ClockIsPrintable | src/recorder/mod.rs:112-119 | every field is in range for its two digits |
| Timestamp.ReadPrinted | src/recorder/mod.rs:121-124 | any clock whose fields fit two digits is printed in that shape and read back from its text |
| Timestamp.FourDigitYears | src/recorder/mod.rs:111-119 | the year has at most four digits exactly up to second 253402300799 |
| Timestamp.TextOrderIsTimeOrder | src/recorder/mod.rs:121-124 | up to the end of year 9999 timestamps sort as texts exactly as in time (RFC 3339, section 5.1) |
| Decimal.DigitsInjective | src/workflow.rs:290-306 | two numbers print alike in decimal exactly if they are equal |
| Decimal.PadInjective | src/testing.rs:95 | zero padding keeps that, also for numbers wider than the padding |
| Decimal.LessFixed | src/recorder/mod.rs:121-124 | texts of the same width compare as their numbers |
| Decimal.PadIsFixed | src/recorder/mod.rs:121-124 | padding gives exactly the asked number of digits whenever the number fits |
| Decimal.PadLeads | src/recorder/mod.rs:121-124 | padding gives at least the width, and zeros in front only up to it |
| Backoff.ClampIsExact | src/rate_limiter.rs:97-101 | for every attempt and durations that fit 64-bit milliseconds, the checked shift, saturating product and minimum equal the exact min(min_backoff * 2^attempt, max_backoff) |
| Backoff.ClampIsExactExactly | src/rate_limiter.rs:97-101 | for all durations, the clamped delay is exact if and only if the casts are harmless: the minimum fits or its rest still reaches the maximum, and a maximum that does not fit is not reached |
| Backoff.HugeDurationTruncates | src/rate_limiter.rs:98 | a minimum of 2^64 ms counts as 0 |
| Backoff.DelayRange | src/rate_limiter.rs:103-116 | without `Retry-After` the delay is at least half the clamped delay and below it, unless both are 0 |
| Backoff.ServerDelayExactly | src/rate_limiter.rs:92-95 | with `Retry-After` the delay is the server's if it is at most max_backoff, and else max_backoff |
| Backoff.JitterOfReading | src/rate_limiter.rs:103-116 | each nanosecond of the clock adds a millisecond to half the clamped delay, wrapping around at the clamped delay |
| Backoff.JitterExactly | src/rate_limiter.rs:103-116 | the possible delays are exactly the whole milliseconds from half the clamped delay to below it, as far as the nanoseconds of a second reach |
| Backoff.DelayIsBounded | src/rate_limiter.rs:87-117 | no delay exceeds `max_backoff` |
| Backoff.ClampGrows | src/rate_limiter.rs:98-101 | the clamped delay never shrinks with the attempt |
| Retry.Request | src/transport/http.rs:165-211 | stops at the first reply that is not retryable or at the last allowed attempt, returns that reply, sends at most max_retries + 1 requests, sleeps the backoffs of the attempts before it and at most max_retries * max_backoff, and reaches `unreachable!` exactly if `max_retries` wraps |
| Retry.StopsExactly | src/transport/http.rs:166-194 | the loop stops at attempt m if and only if all replies before it are retryable and it is not, or m is max_retries + 1 (1 when retries are disabled); with n retryable replies first and n at most max_retries it makes more than n attempts |
| Retry.AllowedAttempts | src/transport/http.rs:166-170 | 1 attempt when retries are disabled, max_retries + 1 when enabled, 0 if that wraps |
| Retry.RetryableMeans | src/transport/http.rs:182-194 | exactly the statuses 429 and, on request, 502 to 504 are retried |
| Retry.SleepAfter | src/transport/http.rs:183-205 | after a 429 that says how long, the sleep is that, up to max_backoff; after any other retried reply it is the delay of that attempt |
| Retry.SleptIsBounded | src/transport/http.rs:196-205 | any number of retried attempts sleeps at most that often `max_backoff` |
| Retry.SleptWithin | src/transport/http.rs:166-205 | the sleeps before the last allowed attempt are at most max_retries * max_backoff |
| Middleware.MiddlewareChain.constructor | src/middleware.rs:87-91 | a new chain is empty |
| Middleware.MiddlewareChain.AddLayer | src/middleware.rs:94-99 | the chain is the old one with the layer at its end |
| Middleware.MiddlewareChain.PrependLayer | src/middleware.rs:103-111 | the chain is the old one with the layer in front |
| Middleware.MiddlewareChain.InsertLayerBefore | src/middleware.rs:114-128 | the layer is inserted before the first one of that name, or in front if there is none; the others keep their order |
| Middleware.MiddlewareChain.InsertLayerAfter | src/middleware.rs:131-146 | the layer is inserted after the first one of that name, or at the end if there is none; the others keep their order |
| Middleware.MiddlewareChain.RemoveLayer | src/middleware.rs:149-151 | all layers of that name are gone and the others keep their order |
| Middleware.MiddlewareChain.Wrap | src/middleware.rs:157-178 | the handler built from the inside out is the onion with the first layer outermost, on every context |
| Middleware.Position | src/middleware.rs:115-137 | finds the first layer of a name, or none exactly if there is none |
| Middleware.KeepsOthers | src/middleware.rs:94-151 | one operation leaves all layers it does not name in their order |
| Middleware.WithoutIsFilter | src/middleware.rs:149-151 | removing keeps each layer of another name, once, in its place, and drops each of the name |
| Middleware.UntouchedKeepOrder | src/middleware.rs:94-151 | so does any sequence of operations |
| Middleware.InsertThenRemove | src/middleware.rs:94-151 | inserting a fresh name in any way and removing it restores the chain |
| Middleware.TraceIsPath | src/middleware.rs:157-178 | before-parts run in list order, after-parts in reverse, and a layer that answers by itself keeps the handler and all later layers from running |
| Middleware.AddedActsLast | src/middleware.rs:94-178 | an added layer is entered after all others, and only if they all pass the job on |
| Middleware.PrependedActsFirst | src/middleware.rs:103-178 | a prepended layer is entered before all others and they run inside it |
| Middleware.ResultUnwinds | src/middleware.rs:157-178 | the result is the handler's, or that of the layer that stopped, passed outwards through exactly the layers entered |
| Workflow.ResolveOptions | src/workflow.rs:104-133 | every wire field is the last option that sets it; no options give none |
| Workflow.SetIsLast | src/workflow.rs:111-130 | handling one more option is taking the last over one more option, for every field |
| Workflow.LastOptionLands | src/workflow.rs:111-129 | for any options, the wire field of a kind holds what the last option of that kind says, wherever it stands, with durations in milliseconds and a delay as the time it ends |
| Workflow.NoOptionNoField | src/workflow.rs:104-132 | without an option of a kind its field is unset, and without any option nothing is sent |
| Workflow.ExtractMeta | src/workflow.rs:136-143 | the metadata is that of the first `Meta` option |
| Workflow.NormalizeArgs | src/workflow.rs:370-376 | an array is sent as it is, anything else as the one item of an array |
| Workflow.ToWireStep | src/workflow.rs:294-300 | a wire step carries the step's type, normalised arguments, dependencies and resolved options |
| Workflow.ChainStepToWire | src/workflow.rs:289-300 | one step of a chain depends on the one before it, the first on none |
| Workflow.ChainToWire | src/workflow.rs:287-302 | step `i` of a chain depends on step `i - 1` only |
| Workflow.JobsToWire | src/workflow.rs:303-327 | jobs of a group or batch depend on nothing |
| Workflow.CallbacksToWire | src/workflow.rs:329-357 | each callback that is set becomes one step that depends on all jobs |
| Workflow.ToWire | src/workflow.rs:283-366 | the request holds the steps of its workflow type, the name and the resolved options |
| Workflow.ChainSends | src/workflow.rs:287-302 | step i of a chain is sent as step-i after step-(i-1), with its own type, arguments as an array, and options |
| Workflow.GroupSends | src/workflow.rs:303-313 | job i of a group is sent as job-i with no dependency, with its own type, arguments and options |
| Workflow.BatchSends | src/workflow.rs:314-357 | a batch sends its jobs and after them each callback that is set, under the id of its own outcome, with its own type, arguments and options, and all jobs as dependencies |
| Workflow.StepGraph | src/workflow.rs:283-359 | for any workflow of any size ids are pairwise distinct and dependencies name earlier steps |
| Workflow.PathDescends | src/workflow.rs:283-359 | every path along dependencies goes strictly back in the list |
| Workflow.NoCycle | src/workflow.rs:283-359 | the graph of any workflow is acyclic |
| Workflow.ChainRunsInListOrder | src/workflow.rs:229-302 | any execution of a chain that respects dependencies, even a partial one, is in list order |
| Workflow.ChainRunsExactly | src/workflow.rs:229-302 | the executions of a chain are exactly the prefixes of list order |
| Workflow.CallbackAfterAllJobs | src/workflow.rs:255-357 | in any execution of a batch a callback comes after every job |
| Workflow.BatchRunsExactly | src/workflow.rs:255-357 | the executions of a batch are exactly the orders in which every callback comes after all jobs |
| Workflow.GroupRunsInAnyOrder | src/workflow.rs:242-313 | the executions of a group are exactly the orders of different jobs |
| FakeStore.FakeStore.constructor | src/testing.rs:73-82 | a new store is empty and consistent |
| FakeStore.FakeStore.RecordEnqueue | src/testing.rs:85-106 | appends one available job with attempt 0, the next id, the queue or `default`, and the metadata or none, and returns it; nothing else changes |
| FakeStore.FakeStore.RegisterHandler | src/testing.rs:109-117 | sets the handler of one type and nothing else |
| FakeStore.FakeStore.ClearAll | src/testing.rs:195-199 | forgets all jobs but not the handlers nor the id counter |
| FakeStore.FakeStore.RunJob | src/testing.rs:211-228 | runs one available job through its handler, in place, and records it as performed |
| FakeStore.FakeStore.DrainFrom | src/testing.rs:202-232 | the loop performs exactly the available jobs, each once and in order |
| FakeStore.FakeStore.DrainAll | src/testing.rs:202-232 | returns the number of jobs that were pending, runs each of them through its handler, and leaves none pending |
| FakeStore.InvStep | src/testing.rs:85-232 | every operation keeps the store consistent |
| FakeStore.DrainOutcomes | src/testing.rs:206-229 | a drain leaves performed jobs alone and shows every other one, active and with one more attempt, to its handler; it is completed exactly if there is no handler or that returned Ok, and else discarded |
| FakeStore.StoreIsConsistent | src/testing.rs:85-232 | after any operations the performed jobs are the finished prefix of the enqueued ones, the rest is available with attempt 0, and no id was ever given out twice, not even across `clear_all` |
| FakeStore.FakeIdInjective | src/testing.rs:93-95 | different counters give different ids, beyond six digits too |
| FakeStore.DrainTwice | src/testing.rs:202-232 | a second drain finds nothing and changes nothing |
| Names.ValidateQueueName | src/client.rs:607-652 | accepts exactly the names of 1 to 128 bytes in alnum+ ([-.] alnum+)*, and otherwise reports the first rule that is broken |
| Names.ShapeIsGrammar | src/client.rs:618-651 | the checks on ends and neighbours are together exactly that grammar |
| Names.QueueNameByCharacters | src/client.rs:618-651 | the grammar is: small letters, digits, hyphens and dots, no separator at an end or next to another |
| Names.JobTypeGrammar | src/client.rs:580-605 | accepts exactly the texts of at most 255 bytes that are [a-z][a-z0-9_]* segments joined by dots |
| Names.JobTypeByCharacters | src/client.rs:580-605 | accepts exactly 1 to 255 small letters, digits, underscores and dots that start with a letter and have one after every dot |
| Names.JoinedTypesAccepted | src/client.rs:580-605 | accepted types joined by dots are accepted exactly up to the length bound |

## Left out

- WorkerTheorems.PanicsStarveTheWorker: the half about fetches assumes that fewer than 2^64 jobs are ever fetched, or that the server returns no more than asked for; beyond that the cast of `active_count` at `src/worker.rs:547` wraps around.
- WorkerTheorems.RunKeepsRoom: assumes the same.
- WorkerProgress.FetchesAgainExactly: assumes the same of the state it starts from and of the run that fetches.
- WorkerLoop.Worker.Start: follows a run up to a given moment, because neither loop has to end; an answer that breaks a promise the server is trusted with counts as a failed request.
- Worker, one life: `start` is called once per worker; a second call would share count, set and state with the first.
- Worker, the end: the machine stops when the shutdown loop is left. Dropping the join set then cancels the abandoned tasks, and reaping finished tasks has no effect on the fields.
- Worker, unreachable code: the semaphore is never closed, so the `break` at `src/worker.rs:574` is not a step. `active_count` is an unbounded integer; 2^63 panics would wrap it. The concurrency is at most the 2^61 - 1 permits a tokio semaphore takes.
- Worker, payloads: job contents, results, error texts and handler lookup are choices of the scheduler; what a report call's answer was is not recorded, because a failed report is cleaned up like a successful one.
- Durable, encodings: a value is identified with the JSON that serde writes for it, so a value that cannot be written, or read back as the type asked for, is not modelled; nor are the panics on a corrupted log and a resume with a different handler.
- Durable, checkpoints: saving, loading and deleting them are thin calls to a server that is not part of this repository.
- Event stream, bytes: chunks are cut at characters; a character split between chunks is decoded lossily by the source. A line ends at LF only, so a CR stays in the line.
- Event stream, standard: line ends other than LF, a leading byte order mark, and reconnection times are outside `SseStandard`, which compares the events of lines that are already split.
- Recorder entries: the list of recorded calls is plain appending. Day numbers are unbounded; the u64 of the source overflows only beyond 5 * 10^16 years.
- Retry: building requests, parsing error bodies and the floating-point part of `Retry-After` are replies from outside. With overflow checks on, `max_retries + 1` panics where `Retry.Request` returns `Unreachable`.
- Backoff.ClampIsExact: durations of 2^64 milliseconds or more are left to `Backoff.ClampIsExactExactly`, which says when the delay is still exact.
- Middleware, cancellation: a layer runs the next one to its end or not at all, so a timeout that drops it half way is outside. The bodies of the logging, timeout and metrics layers are not modelled.
- Workflow, values: metadata, policies and times are opaque; the clock behind `Delay` is the parameter `later`.
- FakeStore, handlers: a handler that panics or calls the store again (which would deadlock on its lock) is not modelled; ids are unbounded. The assertion helpers are plain filters.
- Names, bytes: a text stands for its UTF-8 bytes, none of which is allowed outside ASCII.
- HTTP, signals, tracing, encryption, attestation, serverless adapters, serde types, error catalogues and the schema, queue and agent types have no algorithm of their own to prove.
