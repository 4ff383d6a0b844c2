# Models of the operating-systems labs

Dafny models of five programs under `Computer_Science-360/`, with proofs of what they keep over whole runs.

* **The CPU scheduler simulator** (`lab3/scheduler.c`), for first come first served, round robin and shortest job
  first. `SchedulerModel` defines one cycle phase by phase on values; `SchedulerLists` has the same phases in place,
  on process records threaded on two linked lists, and each of its methods is proved to change the ghost field `model`
  by the phase of that name. About the value model, over every input, every random stream and any number of cycles,
  the other modules prove: where each process is (`SchedulerPlacement`), conservation of time and the range of the
  burst counters (`SchedulerTiming`), the order in which a cycle moves processes (`SchedulerOrder`), when the signed
  expiry test is exact (`SchedulerExpiry`), termination within an explicit bound (`SchedulerProgress`), how long a
  stay in the ready queue or in the blocked list lasts (`SchedulerWaiting`), the summary counters
  (`SchedulerSummary`), and that the second simulation of each algorithm agrees with the first (`SchedulerRerun`).
* **The proxy cache** (`lab5/proxy.c`). `ProxyLock` interleaves any number of request threads one step at a time, with
  the two semaphores as guarded steps and each string copy as two steps; it proves that no read is torn, that there is
  no deadlock and that every request completes. `ProxyLookup` proves that lookups find what is stored, and that what
  is sent was fetched. `ProxyRace` proves when interleavings keep names distinct, and `ProxyTouch` and
  `ProxyStrayTouch` when a hit refreshes its own page. `ProxyCache` is the slot array served one request at a time,
  proved to be a recency list of ten pages, and that list is proved to hold the ten most recently used names.
* **Buffered reading** (`lab5/csapp.c`). `RioStream` reads bytes and lines over a descriptor that may return any
  short count and be interrupted finitely often; the results depend on the stream alone.
* **The shell** (`lab2/tsh.c`). `ShellJobs` is the job table in place, `ShellSignals` interleaves the read-eval loop
  with the SIGCHLD handler, `ShellTokens` is the tokenizer over its line buffer with a print-and-parse round trip.
* **Signal-safe number formatting** (`lab5/tiny/csapp.c`). `SioFormat` has the digit loop and the in-place reversal.

## Reading the scheduler

A run is `Run(s, alg, rnd, k)`, the state after k cycles; boundary k is the moment before cycle k. `rnd` is the
stream of random numbers and `line` the count read so far; reopening the file sets it back to 0. Counters are
mathematical integers. `BurstsStayInRange` and `FinishingTimeBound` give the ranges in which the 32-bit fields of the
source hold the same values. The blocked time is read as a signed number by the expiry test, which is exact exactly
when the longest blocked time a process can earn, `LongestBlock`, is below 2^31 (`ExpiryTestIsExact`); for that
1 + M * (B - 1) < 2^31 is enough. From there on up the source takes a process for expired that the model keeps blocked.

The blocked time of a burst of b cycles is 1 + M * (b - 1), because `BurstTime` is computed after the first decrement
of `CPUBurst` (`SchedulerWaiting.Episode`). The samples in `sample_io/output/summary` and `trace_and_summary` agree
with that. Those in `normal` and `detailed` have other finishing times for inputs 4 and 5; there the code is followed.

Eight laws one might expect do not hold, and the exact condition is proved instead:

* under FCFS and RR the simulation loop stops exactly when every process needs at least one cycle
  (`TerminatesExactlyWhen`);
* the expiry test sees the true blocked time of a process in every run exactly when 1 + M * (b - 1) < 2^31 for the
  longest burst b after which it can block, the least of B, C - 1 and, under RR, 2 (`ExpiryTestIsExact`);
* the names in the cache stay distinct in every interleaving exactly when no two requests are for the same name
  (`NamesDistinctExactlyWhen`); served one at a time they always do (`RequestDistinct`);
* the touch after a hit finds its own page on the line in every interleaving exactly when there are at most eleven
  threads, or all requests are for different names, or all for the same (`TouchesOwnExactlyWhen`);
* the array that is kept as a page holds the page, whatever it held before, exactly when the response is not empty and
  fits (`HoldsPageExactlyWhen`); an empty one is kept all the same, from an array that was never written;
* the shell can get back from a wait exactly when it waits for a real pid (`WaitEndsExactlyWhen`), and `fg` waits for
  pid 0, and so forever, exactly when its job was reaped before its pid was read (`FgWaitsForNobodyExactlyWhen`);
* job IDs stay distinct over any additions, from the start or a deletion on, exactly when no live job has one of the
  small IDs that are given out after the next ID has wrapped round (`JobIDsStayDistinctExactlyWhen`); a run from the
  empty table reaches two live jobs with one ID (`JobIDsCanRepeat`);
* a printed command line parses back exactly when the background flag is set, or it has a last argument that does not
  start with an ampersand (`ShellTokens.RoundTrip`).

## Model

| member | source | states |
|---|---|---|
| SchedulerLists.Process.constructor | Computer_Science-360/lab3/scheduler.c:795-818 | A process record as read from the input starts unstarted, unlinked and with zero counters, with the drawn burst, M times that as blocked time and a quantum of 2. |
| SchedulerLists.Scheduler.Qsetup | Computer_Science-360/lab3/scheduler.c:78-93 | Enqueueing a record that is not queued turns the chain for q into the chain for q followed by it. |
| SchedulerLists.Scheduler.Dsetup | Computer_Science-360/lab3/scheduler.c:97-114 | Dequeueing returns the head and leaves the chain for the rest, or returns null and changes nothing. |
| SchedulerLists.Scheduler.FindShortest | Computer_Science-360/lab3/scheduler.c:341-352 | The scan returns the record at the position the specification picks. |
| SchedulerLists.Scheduler.TakeReady | Computer_Science-360/lab3/scheduler.c:355-380 | The front, back and middle removals all leave the old queue without that record, in the same order, with both ends and the counter right. |
| SchedulerLists.Scheduler.InsertB | Computer_Science-360/lab3/scheduler.c:155-168 | Inserting appends to the blocked chain. |
| SchedulerLists.Scheduler.RemoveB | Computer_Science-360/lab3/scheduler.c:172-188 | Removing takes the head of the blocked chain and unlinks it. |
| SchedulerLists.Scheduler.TakeBlocked | Computer_Science-360/lab3/scheduler.c:202-230 | The three removals from the blocked list leave the others in order and the removed record with a null link. |
| SchedulerLists.Scheduler.ProceedForward | Computer_Science-360/lab3/scheduler.c:242-279 | In place, the first phase has exactly the effect `Proceed` on the whole simulation state, and keeps both chains. |
| SchedulerLists.Scheduler.ExecxuteB | Computer_Science-360/lab3/scheduler.c:192-235 | The release loop ends after one release, that of the first expired record, or releases nothing. |
| SchedulerLists.Scheduler.Creation | Computer_Science-360/lab3/scheduler.c:285-302 | The loop queues exactly the processes arriving now, in input order, and counts them. |
| SchedulerModel.DrawnBursts | Computer_Science-360/lab3/scheduler.c:396-403 | The bursts that some random number draws for a process are exactly those from 1 to B and to the time it still needs. |
| SchedulerLists.Scheduler.ExecuteR | Computer_Science-360/lab3/scheduler.c:334-418 | In place, the dispatch phase has exactly the effect `Dispatch`, including the branch that forgets a process with nothing to run. |
| SchedulerLists.Scheduler.AnyBlocked | Computer_Science-360/lab3/scheduler.c:473-480 | The second loop of the countdown finds a blocked process if there is one. |
| SchedulerLists.Scheduler.Countdown | Computer_Science-360/lab3/scheduler.c:440-481 | Every process's counter for its condition moves by one, and the I/O counter by one if some process is blocked. |
| SchedulerLists.Scheduler.Datapoint | Computer_Science-360/lab3/scheduler.c:655-697 | One cycle in place is `Cycle` on the model, and keeps the invariant. |
| SchedulerLists.Scheduler.Simulate | Computer_Science-360/lab3/scheduler.c:725-726 | The loop terminates, at the first boundary where everything is finished, within the finishing-time bound. |
| SchedulerLists.Scheduler.Extra | Computer_Science-360/lab3/scheduler.c:486-521 | The reset leaves a fresh simulation with empty, unlinked lists. |
| SchedulerLists.Scheduler.Listoutputs | Computer_Science-360/lab3/scheduler.c:724-757 | Both simulations of an algorithm run for the same number of cycles, each to its first boundary with everything finished, the second from the reset of the first, with the same outcome; and the state left is the reset of the second, fresh on the same input. |
| SchedulerPlacement.ProceedPlaced | Computer_Science-360/lab3/scheduler.c:242-279 | Dealing with the running process keeps the placement invariant and the completion record. |
| SchedulerPlacement.ReleasePlaced | Computer_Science-360/lab3/scheduler.c:192-235 | So does a release. |
| SchedulerPlacement.ArriveIsUnguarded | Computer_Science-360/lab3/scheduler.c:690-693 | Skipping `creation` once all processes were created changes nothing: no arrival is missed. |
| SchedulerPlacement.ArrivePlaced | Computer_Science-360/lab3/scheduler.c:285-302 | Arrivals keep the placement invariant; from then on exactly the processes arriving later are unstarted. |
| SchedulerPlacement.DispatchPlaced | Computer_Science-360/lab3/scheduler.c:334-418 | So does a dispatch under any algorithm. |
| SchedulerPlacement.CyclePlaced | Computer_Science-360/lab3/scheduler.c:688-696 | A whole cycle keeps the placement invariant. |
| SchedulerPlacement.RunPlaced | Computer_Science-360/lab3/scheduler.c:725-726 | At every boundary of every run: lists without repeats that agree with the conditions, and a record of the terminated processes by strictly increasing finishing time. |
| SchedulerPlacement.FinishedIsPermutation | Computer_Science-360/lab3/scheduler.c:251-256 | The record lists no process twice, and the loop's exit test holds exactly when all are terminated; then the record is a permutation of the input. |
| SchedulerTiming.ProceedClocked | Computer_Science-360/lab3/scheduler.c:246-277 | The per-process clock invariant survives the first phase, where the blocked time is fixed. |
| SchedulerTiming.DispatchClocked | Computer_Science-360/lab3/scheduler.c:395-415 | A dispatch gives a burst between 1 and both B and the time needed, loses no queued process, and leaves no queue behind an idle processor. |
| SchedulerTiming.TickClocked | Computer_Science-360/lab3/scheduler.c:443-470 | The countdown keeps the clocks balanced for the next cycle. |
| SchedulerTiming.ReleaseOverdue | Computer_Science-360/lab3/scheduler.c:194-233 | One release per cycle keeps a process at position j of the list from being overdue by more than n - 1 - j cycles. |
| SchedulerTiming.RunBoundary | Computer_Science-360/lab3/scheduler.c:725-726 | All of this holds at every boundary of every run. |
| SchedulerTiming.ExactlyOnePlace | Computer_Science-360/lab3/scheduler.c:242-302 | Every process is in exactly one place, the one its condition names: to arrive, queued, running, blocked, or recorded. |
| SchedulerTiming.TimeIsConserved | Computer_Science-360/lab3/scheduler.c:440-470 | The time since arrival is the time run plus blocked plus waited, at every boundary; at completion with C for the time run. |
| SchedulerTiming.BurstsStayInRange | Computer_Science-360/lab3/scheduler.c:453-455 | A running burst is at least 0 and at most B - 1 and what is still needed; a blocked time is between -(n - 1) and M * (B - 1). |
| SchedulerExpiry.TestedTime | Computer_Science-360/lab3/scheduler.c:196-199 | When the release loop begins, every process on its list is overdue by less than n cycles and has at most its longest blocked time left. |
| SchedulerExpiry.LongestIsReached | Computer_Science-360/lab3/scheduler.c:192-266 | Every process that can block after more than one cycle is tested, in some run, with its longest blocked time left: it is then alone on the list. |
| SchedulerExpiry.ExpiryTestIsExact | Computer_Science-360/lab3/scheduler.c:197-233 | Whenever the release loop comes to a process, in any run, the signed reading of its unsigned 32-bit blocked time is the true value, also below zero, exactly when its longest blocked time is below 2^31. |
| SchedulerExpiry.ShortBlocksAreExact | Computer_Science-360/lab3/scheduler.c:199 | 1 + M * (B - 1) < 2^31 is enough. |
| SchedulerExpiry.BlockedTimeCanWrap | Computer_Science-360/lab3/scheduler.c:199 | M * (B - 1) < 2^31 is not: with B = 2, C = 3 and M = 2^31 - 1 the loop in some run tests a full blocked time and reads it as expired. |
| SchedulerProgress.LeaveWork | Computer_Science-360/lab3/scheduler.c:246-277 | The blocked time a burst is assigned never exceeds what its cycles earned at max(1, M) each. |
| SchedulerProgress.IdleMeansPending | Computer_Science-360/lab3/scheduler.c:196-233 | If the processor stays idle in a cycle, no blocked process had expired. |
| SchedulerProgress.CycleWork | Computer_Science-360/lab3/scheduler.c:688-696 | No cycle adds work, and every unfinished cycle after the last arrival spends some. |
| SchedulerProgress.RecordGrows | Computer_Science-360/lab3/scheduler.c:251-259 | A cycle appends at most one completion, stamped with its own time, and none when all have finished. |
| SchedulerProgress.FinishingTimeBound | Computer_Science-360/lab3/scheduler.c:725-726 | No process finishes later than max A + sum of C * (1 + max(1, M)), under all three algorithms. |
| SchedulerProgress.Terminates | Computer_Science-360/lab3/scheduler.c:725-726 | The loop's exit test holds from one cycle after that bound on. |
| SchedulerProgress.NeverServed | Computer_Science-360/lab3/scheduler.c:402-415 | A process with C = 0 is never selected under FCFS or RR. |
| SchedulerProgress.TerminatesExactlyWhen | Computer_Science-360/lab3/scheduler.c:402-415 | Under FCFS and RR the loop ever stops exactly when every C is at least 1. |
| SchedulerSummary.CycleCPU | Computer_Science-360/lab3/scheduler.c:453-460 | One cycle runs the selected process for one unit and no other. |
| SchedulerSummary.CycleClocks | Computer_Science-360/lab3/scheduler.c:440-470 | One cycle adds a unit of blocked time to each process it leaves in the blocked list, a unit of waiting to each it leaves in the ready queue, and none to any other. |
| SchedulerSummary.TimesAreCycleCounts | Computer_Science-360/lab3/scheduler.c:440-470 | In every run the processor, blocked and waiting times of a process are the numbers of cycles that left it running, blocked and ready. |
| SchedulerSummary.CountersAreCycleCounts | Computer_Science-360/lab3/scheduler.c:472-480 | Total processor time is the number of busy cycles; the I/O counter is the number of cycles with a blocked process. |
| SchedulerSummary.Summary | Computer_Science-360/lab3/scheduler.c:613-638 | The printed finishing time is that of the last completion, the busy cycles are exactly sum C, and neither utilisation exceeds one. |
| SchedulerSummary.CompletionRecord | Computer_Science-360/lab3/scheduler.c:251-256 | The completion order of any run has distinct processes and strictly increasing finishing times, and at the end is a permutation of the input. |
| SchedulerWaiting.KeepsRunning | Computer_Science-360/lab3/scheduler.c:261-277 | While burst and quantum last, the running process keeps the processor and the queue keeps its order. |
| SchedulerWaiting.HandsOver | Computer_Science-360/lab3/scheduler.c:261-272 | When they end, the head of the queue takes over in the same cycle and the others move up one place. |
| SchedulerWaiting.BoundedWaiting | Computer_Science-360/lab3/scheduler.c:395-415 | A stay in the ready queue lasts at most 2 * (n - 1) cycles under RR and (n - 1) * max B under FCFS. |
| SchedulerWaiting.ReleaseInOrder | Computer_Science-360/lab3/scheduler.c:196-233 | An unexpired process stays listed; an expired one leaves or moves up. |
| SchedulerWaiting.ReleaseDelay | Computer_Science-360/lab3/scheduler.c:192-235 | A process assigned D blocked cycles stays for at least D, and at most D plus the number ahead of it when it expires. |
| SchedulerWaiting.BurstEarnsBlockedTime | Computer_Science-360/lab3/scheduler.c:246-266 | A burst of b cycles that is not cut short runs for b cycles and then blocks with the time fixed after its first cycle. |
| SchedulerWaiting.Episode | Computer_Science-360/lab3/scheduler.c:246-266 | From dispatch to release: b cycles running, then between D and D plus the number ahead blocked, with D = 1 + M * (b - 1). |
| SchedulerWaiting.ShortestIsEarliestMinimum | Computer_Science-360/lab3/scheduler.c:341-352 | The SJF scan finds the earliest queued process with the least C - CPUTime. |
| SchedulerWaiting.SJFDispatch | Computer_Science-360/lab3/scheduler.c:339-391 | SJF selects that process, and the queue keeps the others in order. |
| SchedulerOrder.ArrivalsInOrder | Computer_Science-360/lab3/scheduler.c:285-302 | Processes that arrive together queue in input order. |
| SchedulerOrder.CycleOrder | Computer_Science-360/lab3/scheduler.c:688-696 | One cycle in terms of the state before it: at most one process loses the processor and at most one, the first expired, is released; the queue gets the preempted, the released and the arriving ones in that order; and an idle processor takes its first, or under SJF the first with the least time left, with a burst drawn from the next random number. |
| SchedulerRerun.CycleAlike | Computer_Science-360/lab3/scheduler.c:655-697 | A cycle reads none of the leftovers: states that differ only in dead fields stay so. |
| SchedulerRerun.ExtraIsFresh | Computer_Science-360/lab3/scheduler.c:486-521 | The reset turns whatever a simulation leaves into a fresh simulation of the same input. |
| SchedulerRerun.ExtraRedraws | Computer_Science-360/lab3/scheduler.c:515-516 | The reset draws process i a burst from 1 to B with random number i, and a blocked time of M times that. |
| SchedulerRerun.RerunAgrees | Computer_Science-360/lab3/scheduler.c:724-737 | After any simulation and a reset, a run on the same stream shows the same figures and completion order cycle by cycle. |
| ProxyLock.StepLocks | Computer_Science-360/lab5/proxy.c:196-247 | Every step of every thread keeps the semaphore invariant: each is 1 or has one holder, and the readers as a group hold w exactly while counted. |
| ProxyLock.ReadersExcludeWriter | Computer_Science-360/lab5/proxy.c:198-216 | While a thread reads the lines, no thread is inside the writer's section. |
| ProxyLock.OneWriter | Computer_Science-360/lab5/proxy.c:221-246 | At most one thread is inside it. |
| ProxyLock.SentIsWhole | Computer_Science-360/lab5/proxy.c:205-211 | The payload a hit sends is whole and was stored together with the name asked for. |
| ProxyLock.StepData | Computer_Science-360/lab5/proxy.c:196-247 | Every step keeps the lines whole outside the one being copied, and used timestamps distinct and below gtime. |
| ProxyLock.ExecSafe | Computer_Science-360/lab5/proxy.c:196-247 | Both invariants hold after every schedule of any number of threads. |
| ProxyLock.NoTornReads | Computer_Science-360/lab5/proxy.c:196-218 | In every interleaving: no reader beside a writer, every name compared and payload sent is whole, and each sent pair was stored by one call. |
| ProxyLookup.StepSearched | Computer_Science-360/lab5/proxy.c:198-216 | Every step of every thread keeps: the lines a lookup has passed do not hold its name, a lookup that ended without a hit found it on no line, and a hit names a line with the name and has sent its payload. |
| ProxyLookup.LookupFindsExactly | Computer_Science-360/lab5/proxy.c:205-211 | In every interleaving a lookup hits exactly when some used line holds its name, on a line that does, and sends exactly on a hit. |
| ProxyLookup.SentWasFetched | Computer_Science-360/lab5/proxy.c:84-100 | In every interleaving what a hit sends was fetched before by a request for the same name. |
| ProxyLookup.StampIsNewest | Computer_Science-360/lab5/proxy.c:222-242 | The stamp of a touch or an insertion makes its line the most recent one and leaves names and payloads alone. |
| ProxyLock.StoredByOneCall | Computer_Science-360/lab5/proxy.c:224-243 | A pair counts as stored only when one writer call has written both halves, its own name and payload, to one line. |
| ProxyLock.VictimIsLeastRecent | Computer_Science-360/lab5/proxy.c:232-242 | In every interleaving the evicted line has the strictly least timestamp. |
| ProxyLock.SomeoneCanStep | Computer_Science-360/lab5/proxy.c:198-246 | With the locks in order, some thread is enabled while one is unfinished. |
| ProxyLock.DeadlockFree | Computer_Science-360/lab5/proxy.c:198-203 | No interleaving deadlocks, even though a first reader waits on w while holding mutex. |
| ProxyLock.EveryRequestCompletes | Computer_Science-360/lab5/proxy.c:73-103 | A schedule of enabled steps has at most 90 steps per thread, and when it can go no further every request has finished. |
| ProxyRace.NamesNeedNotBeDistinct | Computer_Science-360/lab5/proxy.c:84-100 | Whenever two threads ask for one name, an interleaving of the two leaves it on two lines. |
| ProxyRace.StepNames | Computer_Science-360/lab5/proxy.c:220-243 | With distinct names asked for, every step keeps: no used line has a name that a thread has still to copy, and no two hold the same. |
| ProxyRace.NamesDistinctExactlyWhen | Computer_Science-360/lab5/proxy.c:84-100 | For any number of threads: in every interleaving the used lines not being copied hold distinct names, exactly when no two threads ask for the same name. |
| ProxyTouch.StepKept | Computer_Science-360/lab5/proxy.c:220-243 | With at most eleven threads every step keeps the line of a pending hit: an eviction would take ten other threads that filled the cache. |
| ProxyTouch.OneNameTouched | Computer_Science-360/lab5/proxy.c:221-223 | When all requests are for one name, every touch finds it. |
| ProxyStrayTouch.StrayTouch | Computer_Science-360/lab5/proxy.c:84-89 | With twelve threads, two of them asking for one name and one for another, some interleaving evicts the line between the hit and the touch. |
| ProxyStrayTouch.TouchesOwnExactlyWhen | Computer_Science-360/lab5/proxy.c:84-89 | In every interleaving every touch finds its own name on its line, exactly when there are at most eleven threads, or no two requests are for the same name, or all are. |
| ProxyCache.RequestDistinct | Computer_Science-360/lab5/proxy.c:84-100 | One request at a time, names on the recency list stay distinct, because the lookup came just before the insertion. |
| ProxyCache.Cache.constructor | Computer_Science-360/lab5/proxy.c:182-194 | The initial cache is valid and empty. |
| ProxyCache.Cache.Reader | Computer_Science-360/lab5/proxy.c:205-217 | The lookup returns the line of the name and its payload, or -1 exactly when no used line has it. |
| ProxyCache.Cache.FindVictim | Computer_Science-360/lab5/proxy.c:232-239 | The scan returns the least recently stamped line. |
| ProxyCache.Cache.Writer | Computer_Science-360/lab5/proxy.c:220-247 | A touch moves the page to the recent end; an insertion appends, dropping the least recent page of a full cache. |
| ProxyCache.Cache.Doit | Computer_Science-360/lab5/proxy.c:84-102 | One request has exactly the effect of a request on the recency list and keeps names distinct; it serves the page listed under its name if there is one, and the page fetched otherwise. |
| ProxyCache.Cache.Serve | Computer_Science-360/lab5/proxy.c:60-67 | So does any sequence of requests served one at a time. |
| ProxyCache.HoldsTheMostRecent | Computer_Science-360/lab5/proxy.c:220-247 | After any sequence of requests the cache holds the ten most recently used distinct names, in order of last use. |
| ProxyCache.HitExactlyWhenRecent | Computer_Science-360/lab5/proxy.c:84-89 | A request is a hit exactly when its name is among those ten. |
| ProxyCache.PagesWereFetched | Computer_Science-360/lab5/proxy.c:84-100 | The page held for a name is the one fetched at its latest miss that was kept, and every request for the name since then was a hit. |
| ProxyCache.ServedInRuns | Computer_Science-360/lab5/proxy.c:84-100 | In a run from the empty cache a miss is served its own page, and a hit the page of the latest kept miss for its name, with only hits since. |
| RioStream.LineOfIsALine | Computer_Science-360/lab5/csapp.c:860-883 | A line is a prefix without inner newline that stops at a newline, at maxlen - 1 bytes or at the end, and nowhere else. |
| RioStream.Rio.constructor | Computer_Science-360/lab5/csapp.c:826-832 | A new buffer is empty, so the stream is the descriptor's. |
| RioStream.Rio.Refill | Computer_Science-360/lab5/csapp.c:798-810 | Refilling retries interruptions, never changes the unread stream, and leaves the buffer empty only at its end or on an error. |
| RioStream.Rio.Read | Computer_Science-360/lab5/csapp.c:794-820 | A read moves a prefix of the unread stream to the given place, nothing else, and returns 0 only at the end. |
| RioStream.Rio.ReadNB | Computer_Science-360/lab5/csapp.c:838-853 | The next min(n, rest) bytes, whatever the counts of read(); on an error the bytes taken are still accounted for. |
| RioStream.Rio.ReadLineB | Computer_Science-360/lab5/csapp.c:860-883 | Exactly the next line of the stream, zero-terminated. |
| RioStream.Rio.RunScript | Computer_Science-360/lab5/csapp.c:794-883 | Any mix of byte and line reads returns what the plain stream gives, independent of chunking and interruptions. |
| RioStream.ScriptConserves | Computer_Science-360/lab5/csapp.c:794-883 | What a script returned followed by what it left unread is the original stream. |
| RioStream.ScriptReads | Computer_Science-360/lab5/csapp.c:838-883 | Each read of a script returns what stands at its position of the stream, the bytes asked for or a line, fewer only at the end, and the next goes on behind it. |
| RioStream.Rio.ForwardLines | Computer_Science-360/lab5/proxy.c:91-98 | The line loop passes on the whole stream and counts its bytes; its unchecked copies overrun object_buf exactly when the count reaches its size, and otherwise leave the page, a terminator and the old rest there, or everything old for an empty response. |
| RioStream.HoldsPageExactlyWhen | Computer_Science-360/lab5/proxy.c:91-100 | Whatever object_buf held before, it ends up holding the page as a C string exactly when the page is not empty and fits. |
| RioStream.EmptyResponse | Computer_Science-360/lab5/proxy.c:99-100 | After an empty response an array that held no terminator still holds none, and it passes the size test. |
| RioStream.WriteN | Computer_Science-360/lab5/csapp.c:764-781 | All n bytes are written in order over any short writes; on an error a prefix was. |
| ShellJobs.JobTable.AddJob | Computer_Science-360/lab2/tsh.c:634-657 | The job goes to the first free slot with the next job ID; it succeeds exactly for a positive pid and a free slot. |
| ShellJobs.JobTable.GetJobPid | Computer_Science-360/lab2/tsh.c:688-697 | The first slot with a positive pid, or none. |
| ShellJobs.JobTable.MaxJobID | Computer_Science-360/lab2/tsh.c:623-631 | The largest job ID. |
| ShellJobs.JobTable.DeleteJob | Computer_Science-360/lab2/tsh.c:660-675 | The first slot with the pid is cleared and the next job ID becomes one more than the largest. |
| ShellJobs.JobTable.ForegroundPid | Computer_Science-360/lab2/tsh.c:678-685 | The pid of the first foreground job, or 0. |
| ShellJobs.JobTable.ReapOne | Computer_Science-360/lab2/tsh.c:536-555 | One turn of the handler marks its job stopped or deletes it, and leaves unknown pids alone. |
| ShellJobs.AddFills | Computer_Science-360/lab2/tsh.c:640-652 | An addition fills one free slot with the whole job, and no other. |
| ShellJobs.StopChanges | Computer_Science-360/lab2/tsh.c:543-546 | A stop sets the state of the child's job to ST and changes nothing else. |
| ShellJobs.TerminationChanges | Computer_Science-360/lab2/tsh.c:548-555 | A termination clears the child's slot, leaves the others, and makes the next job ID one more than the largest. |
| ShellJobs.DeleteUndoesAdd | Computer_Science-360/lab2/tsh.c:634-675 | Deleting a job just added gives back the slots. |
| ShellJobs.DeletionFollows | Computer_Science-360/lab2/tsh.c:670-671 | At the start and after every deletion the next job ID is one more than the largest. |
| ShellJobs.AdditionsGive | Computer_Science-360/lab2/tsh.c:642-648 | From there n additions give out the IDs up to the limit and, once wrapped round, those from 1 on. |
| ShellJobs.JobIDsStayDistinctExactlyWhen | Computer_Science-360/lab2/tsh.c:642-648 | n additions keep live job IDs distinct exactly when no live job has an ID from 1 to n less the additions before the wrap. |
| ShellJobs.JobIDsCanRepeat | Computer_Science-360/lab2/tsh.c:644-671 | A run of additions and deletions from the empty table to two live jobs with job ID 1. |
| ShellSignals.StepForeground | Computer_Science-360/lab2/tsh.c:338-366 | Every shell step and handler turn keeps: at most one slot is FG, and only the one the shell waits for. |
| ShellSignals.AtMostOneForeground | Computer_Science-360/lab2/tsh.c:28-35 | In every interleaving at most one job is FG, and none when a command is about to be read. |
| ShellSignals.WaitfgReturnsAfterForeground | Computer_Science-360/lab2/tsh.c:506-517 | When the wait loop ends, no job is FG. |
| ShellSignals.Masked | Computer_Science-360/lab2/tsh.c:342-360 | From the fork until the job is recorded, and between the test and the suspension of a wait, no handler changes anything: no child is reaped before it is recorded, and no wake-up is lost. |
| ShellSignals.Handled | Computer_Science-360/lab2/tsh.c:536-555 | At every other point a child's end or stop takes effect at once on its job alone. |
| ShellSignals.EvalRecords | Computer_Science-360/lab2/tsh.c:358-365 | The child of a command is recorded in a free slot, FG and waited for, or BG and not. |
| ShellSignals.EvalWaits | Computer_Science-360/lab2/tsh.c:358-365 | After a foreground command the shell waits, and the job stays FG, through all events but the child's own stop or termination. |
| ShellSignals.BgFgSets | Computer_Science-360/lab2/tsh.c:491-497 | `bg` makes its job BG and `fg` makes it FG, and they change nothing else. |
| ShellSignals.FgWaits | Computer_Science-360/lab2/tsh.c:494-497 | After `fg` on a live job the job stays FG and the shell away from its prompt, through all events but the child's own. |
| ShellSignals.ReapedWaitEnds | Computer_Science-360/lab2/tsh.c:506-517 | Once the child has been reaped, stopped or terminated, three steps lead from the wait to the prompt. |
| ShellSignals.WaitCanEndExactlyWhen | Computer_Science-360/lab2/tsh.c:506-517 | From any state inside the wait loop that keeps the invariants, some events lead back to the prompt exactly when the pid waited for is not 0. |
| ShellSignals.WaitEndsExactlyWhen | Computer_Science-360/lab2/tsh.c:506-517 | After any run that is inside the wait loop, some continuation reaches the prompt exactly when the wait is for a pid of at least 1. |
| ShellSignals.ZeroWaitNeverEnds | Computer_Science-360/lab2/tsh.c:512-513 | A wait for pid 0 is never ended by any events. |
| ShellSignals.FgWaitsForNobodyExactlyWhen | Computer_Science-360/lab2/tsh.c:490-497 | However the handler interleaves with `fg` on a live job, it waits for pid 0 exactly when the job was reaped before its pid was read, and for the job otherwise; and the shell can return to its prompt exactly in the second case. |
| ShellSignals.FgCanWaitForNobody | Computer_Science-360/lab2/tsh.c:490-497 | A run from the start in which `fg` waits for pid 0. |
| ShellTokens.TokenCount | Computer_Science-360/lab2/tsh.c:401-415 | A line has at most half as many arguments as characters, so a line of fewer than 256 cannot overflow the argument vector. |
| ShellTokens.TokensOfWords | Computer_Science-360/lab2/tsh.c:388-415 | The arguments of a line of words, plain or quoted, with any spaces between them, are those words, up to a quote that is never closed. |
| ShellTokens.EveryLineHasWords | Computer_Science-360/lab2/tsh.c:388-415 | Every line as it is tokenized, with a space for its newline, is made of such words, spaces and possibly an unclosed quote. |
| ShellTokens.RoundTrip | Computer_Science-360/lab2/tsh.c:378-426 | Printing any quoted or plain arguments and parsing the line gives them and the flag back exactly when the flag is set or a last argument exists that does not start with an ampersand. |
| ShellTokens.Tokenizer.Skip | Computer_Science-360/lab2/tsh.c:388-389 | Leading spaces are skipped. |
| ShellTokens.Tokenizer.NextArg | Computer_Science-360/lab2/tsh.c:393-399 | The next argument runs to the next space, or to the closing quote when it starts with a quote. |
| ShellTokens.Tokenizer.Record | Computer_Science-360/lab2/tsh.c:402-404 | Recording an argument and cutting it off leaves those recorded before intact and the rest of the line unread. |
| ShellTokens.Tokenizer.Parseline | Computer_Science-360/lab2/tsh.c:378-426 | The argument vector ends up holding, as C strings in the one buffer, exactly the arguments of the line, with the background flag; for a printed line that meets the condition of the round trip, those that were printed. |
| SioFormat.RoundTrip | Computer_Science-360/lab5/tiny/csapp.c:238-255 | Reading back the text of v gives v, for every v and every base from 2 to 36. |
| SioFormat.TextIsInjective | Computer_Science-360/lab5/tiny/csapp.c:238-255 | Different numbers have different texts. |
| SioFormat.NoLeadingZero | Computer_Science-360/lab5/tiny/csapp.c:246-251 | A zero comes first only in the text of zero, and a minus sign exactly for negative numbers. |
| SioFormat.TextFits | Computer_Science-360/lab5/tiny/csapp.c:276-282 | The text of any long but the least, with its terminator, is at most 65 bytes, so it fits the 128-byte buffer. |
| SioFormat.DigitTable | Computer_Science-360/lab5/tiny/csapp.c:247 | The digits are 0 to 9 and then a to z, in order. |
| SioFormat.SioStrlen | Computer_Science-360/lab5/tiny/csapp.c:258-265 | The length of the C string. |
| SioFormat.SioReverse | Computer_Science-360/lab5/tiny/csapp.c:226-235 | The string is reversed in place and the rest of the buffer untouched. |
| SioFormat.PutDigits | Computer_Science-360/lab5/tiny/csapp.c:246-248 | The do-while loop writes the digits, least significant first, and no more. |
| SioFormat.SioLtoa | Computer_Science-360/lab5/tiny/csapp.c:238-255 | The buffer ends up holding the text of v, for every long but the least. |

## Left out

- SchedulerProgress.TerminatesExactlyWhen: does not cover SJF, because there a process with C = 0 runs with an
  unsigned burst counter that wraps below zero, which the integers used here do not model. Every result that
  asks for C >= 1 holds for SJF.
- SchedulerWaiting.BoundedWaiting: does not cover SJF, whose queue is not first in first out; there a stay is bounded
  only by the finishing time of the whole simulation.
- SchedulerLists.Scheduler.Simulate: does not model the end of the random-number file; the stream is unbounded, and
  its numbers are non-negative.
- ProxyCache.PagesWereFetched: takes the page of an empty response to be the empty string; the source inserts an array
  it never wrote (`RioStream.EmptyResponse`).
- RioStream.Rio.ForwardLines: past the first line that does not fit into `object_buf` the source writes outside it;
  the model stops copying there and reports the overrun. A zero byte in a line, which would end the copied string
  early, is left out.
- RioStream.Rio.ReadLineB: with maxlen = 0 the source writes its terminator outside the buffer; the model asks for
  maxlen >= 1.
- SioFormat.SioLtoa: does not cover the least long, whose negation overflows.
- ShellTokens.Tokenizer.Parseline: asks for fewer than 128 arguments and a line within 1023 characters, as the arrays
  of the source do without a check.
- The scheduler's algorithm 2 with its suspended queue, and the fields `namelessOp` and `firstPrime` that only it
  reads.
- Widths of the scheduler's other counters: they are bounded by the finishing-time bound, and hold the same values as
  32-bit words below that width.
- Printing, argument and file parsing, and the floating-point averages of the scheduler.
- Sockets, DNS, HTTP parsing and forwarding, the fixed size of names and payloads, and zero bytes inside payloads in
  the proxy; pages and names are values, and the fetched page is a choice of the environment.
- fork, exec, signal delivery and terminal output of the shell. A new child is taken to have a pid that no live job
  has. Termination of a wait for a real pid depends on the child and is not claimed.
- The rest of both `csapp.c` files, which are thin wrappers.
- The file-tree lab, the kernel-module lab and the web application: easy invariants or none.
