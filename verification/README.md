# HP-HTTP-Server in Dafny

A model of the server's connection handling and of the measurement tools beside it, with proofs
about every run of them. `dafny verify dfyconfig.toml` checks the whole project.

| files | what they model |
|---|---|
| `Parser.dfy`, `Stream.dfy` | the incremental request parser, and a plain reading of the byte stream to compare it with |
| `Session.dfy`, `ConnectionHandler.dfy` | the HTTP session over one connection, as functions of an arbitrary environment and as the objects that change in place |
| `SessionProtocol.dfy`, `SessionInvariant.dfy`, `SessionRuns.dfy` | what a lawful history is, the session invariant, and the theorems over all runs |
| `SessionConfluence.dfy` | a reference semantics from bytes to responses, and that every schedule agrees with it |
| `SessionSettling.dfy` | that sessions come to rest in every world, and with what responses |
| `SharedBudget.dfy` | one resource budget object under any number of connections and sessions |
| `Management.dfy` | start, stop and failure of the management thread |
| `StageLedger.dfy`, `StageLedgerRuns.dfy`, `StageReservation.dfy` | the serial two-role reservation ledger of the tail-localization stage |
| `RegressionLedger.dfy`, `RegressionRuns.dfy`, `RegressionReservation.dfy` | the regression ledger, recomputed from files that may be torn |
| `Histogram.dfy` | the in-place latency correction and the percentile read from it |
| `Intervals.dfy` | interval union, covered time and one analysed request |
| `Supervision.dfy` | finding and signalling the descendants of a command |
| `EventProbe.dfy`, `EventDecoder.dfy`, `EventTraces.dfy` | the wait-event probe, its dump and the decoder |
| `ServerConfig.dfy`, `CommandLine.dfy` | options from defaults, file and command line |
| `AccessLog.dfy` | the access record and its JSON line, with a reader written from RFC 8259 |

The session asks its environment (clock, budget, transport, providers, executor) at numbered
moments, and a theorem holds for every environment unless it names what it asks of it (an
application that decides by the request alone, a monotone clock, timers that do not fire early).
A send may be refused, complete later, or complete at once; then it re-enters the session, and the functions recurse as the source does.
Processes that may die are modelled by the list of their durable effects and the number that
happened. Threads are modelled by their steps between lock operations.

Where a property that one would expect does not hold of the code, the code is modelled as it is:

* The percentile of a corrected histogram can fall through to 0, because the correction may move
  responses below the recorded minimum (`Histogram.PileFallsThrough`); exactly when it cannot is
  settled by `Histogram.AlwaysFoundIff`, and it cannot if the responses came from closed-loop
  connections within the duration (`Histogram.ClosedLoopIsFound`).
* The order of the R008 link samples is enforced only if the authorization has an R008 section
  (`StageLedgerRuns.LinkGatedIffAuthorized`).
* A process forked by an earlier child of the wrapper after the command started can be taken for a
  descendant of the command (`Supervision.AliveChildMisleads`), and a descendant that is given the pid
  of an earlier child can be missed (`Supervision.TakeoverMisleads`); exactly when neither can happen
  is settled by `Supervision.AlwaysExactIff` and, if pids are not given out again, by
  `Supervision.FreshExactIff`.

## Model

| member | source | states |
|---|---|---|
| RequestParsing.Step | src/http/HttpRequest.cpp:393-455 | one byte counts one request byte and never leaves the header states once it is past them; the result respects every buffer limit of the parser |
| RequestParsing.Consume | src/http/HttpRequest.cpp:393-455 | feeding stops at the end or announcement of a request, otherwise takes all bytes; the byte count grows by exactly what was accepted |
| RequestParsing.ConsumeSplit | src/http/HttpRequest.cpp:393-455 | feeding two reads in turn is feeding them at once: a read that leaves the request unfinished is absorbed, one that ends or announces it is unaffected by what follows |
| RequestParsing.SplitInvariance | src/http/HttpRequest.cpp:393-455 | any cut of the bytes into any number of reads gives the parser the same state and takes the same bytes |
| RequestParsing.BodyBlock | src/http/HttpRequest.cpp:366-374 | copying a block of body bytes at once is taking them one at a time |
| RequestParsing.ChunkBlock | src/http/HttpRequest.cpp:366-374 | the same for chunk data |
| RequestParsing.ContentLengthBody | src/http/HttpRequest.cpp:361-455 | a request with Content-Length n takes exactly the next n bytes as its body, however many follow |
| RequestParsing.RequestParser.FeedRequestBytes | src/http/HttpRequest.cpp:393-455 | the block-copying loop leaves the object in the state, and returns the count, of byte-by-byte feeding |
| Stream.ScanFeed | app/HttpConnectionHandler.cpp:68-121 | feeding the parser of a session keeps it in step with a plain byte-by-byte reading of everything consumed |
| Stream.ScanPrefix | app/HttpConnectionHandler.cpp:68-121 | more bytes never change the requests already found in a stream |
| Session.ReceiveProgress | app/HttpConnectionHandler.cpp:68-121 | every receive that goes on to send has fewer unread bytes or a header announcement fewer before it: the measure on which the mutual recursion of message, send and write-complete ends |
| SessionProtocol.LawfulHistory | app/HttpConnectionHandler.cpp:32-43 | a lawful history balances begun against completed, aborted and pending, and has as many answers as final sends |
| SessionProtocol.CancelledOnce | app/HttpConnectionHandler.cpp:164-184 | in a lawful history every accepted job is cancelled exactly once unless it is still open |
| SessionProtocol.JobAnswersItsSubmitter | app/HttpConnectionHandler.cpp:245-265 | a final response that carries a job result answers the whole request that submitted that job, the only submission since the request began |
| SessionInvariant.OnMessageInv | app/HttpConnectionHandler.cpp:68-214 | handling input keeps the session invariant and leaves no readable input behind |
| SessionInvariant.SendFinalInv | app/HttpConnectionHandler.cpp:216-233 | sending a final response keeps the invariant whether the send is refused, completes later or completes at once and recurses |
| SessionInvariant.OnWriteCompleteInv | app/HttpConnectionHandler.cpp:304-329 | completing a write keeps the invariant, including the nested handling of buffered input |
| SessionInvariant.OnTaskContinuationInv | app/HttpConnectionHandler.cpp:245-265 | a task continuation keeps the invariant and leaves a wake-up scheduled if the task is still awaited |
| SessionInvariant.DestroyedInv | app/HttpConnectionHandler.cpp:26-30 | destruction in any state keeps the invariant |
| SessionInvariant.DeliverInv | app/HttpConnectionHandler.cpp:68-329 | every notification keeps the invariant in every world |
| SessionRuns.BytesConserved | app/HttpConnectionHandler.cpp:68-121 | bytes parsed followed by bytes buffered are exactly the bytes accepted, in order: none is lost, repeated or reordered |
| SessionRuns.ResponsesInOrder | app/HttpConnectionHandler.cpp:68-329 | for every stream, every cut into reads and every mixture of immediate and later sends the k-th final response answers the k-th request; only the last may answer something that is not a whole request |
| SessionRuns.Accounting | app/HttpConnectionHandler.cpp:32-53 | in every reachable state begun = completed + aborted + pending, a lease is held exactly while a request is pending, a job exists exactly in AwaitingTask and every other accepted job was cancelled exactly once |
| SessionRuns.BalancedAfterDestroy | app/HttpConnectionHandler.cpp:26-43 | after destruction nothing is pending or leased and every accepted job was cancelled exactly once |
| SessionRuns.ClosingIsForever | app/HttpConnectionHandler.cpp:68-329 | Closing is absorbing, and after it or after the connection closed no final response and no 100 is ever sent |
| SessionRuns.DeadlineIsStartPlusTimeout | app/HttpConnectionHandler.cpp:55-90 | the read deadline is set exactly for a pending request being read, equals its start plus the timeout, and the connection timer agrees |
| SessionRuns.DeadlineNeverMoves | app/HttpConnectionHandler.cpp:73-121 | no later bytes and no 100-continue exchange moves the deadline of a request |
| SessionRuns.NothingForgotten | app/HttpConnectionHandler.cpp:68-121 | an open session that waits for input has parsed every byte it received and is not paused; one that waits for a task has a current wake-up no later than the task deadline |
| SessionRuns.StaleContinuation | app/HttpConnectionHandler.cpp:245-251 | after any run, a continuation of another generation, or one that arrives when no task is awaited, changes neither session nor history, and nothing at all while a task is awaited |
| SessionRuns.BytesDuringTask | app/HttpConnectionHandler.cpp:68-72 | over every stretch of notifications during which one task is awaited the session and what it sent stay the same, and all input is kept in order |
| SessionRuns.PollsAreBounded | app/HttpConnectionHandler.cpp:235-265 | with a monotone clock and timers that do not fire early one task is polled a bounded number of times, whatever else arrives between the polls |
| SessionRuns.LateResultDropped | app/HttpConnectionHandler.cpp:252-262 | after any run, a poll whose second clock reading has reached the deadline cancels the job and may answer only with the timeout or failure reply, never with a result |
| SessionConfluence.ServeSplit | app/HttpConnectionHandler.cpp:68-214 | in the reference semantics a read that leaves its request unfinished does not influence the responses |
| SessionConfluence.RunServes | app/HttpConnectionHandler.cpp:68-329 | a run at rest in which nothing expired, drained, failed or was refused gave exactly the responses of a reference that maps the byte stream to responses request by request, whatever its clock showed |
| SessionConfluence.ScheduleIndependence | app/HttpConnectionHandler.cpp:208-329 | two such runs that differ in the cut into reads, in when sends complete, in the clock, in deadlines and in how often tasks are polled give the same responses |
| SessionConfluence.ReentrantFormServes | app/HttpConnectionHandler.cpp:216-233 | when every send completes at once and nothing expired, drained, failed or was refused, the responses are exactly those of the reference after every notification that leaves no task awaited: the recursion leaves nothing behind |
| SessionSettling.NudgesCount | app/HttpConnectionHandler.cpp:68-329 | in every world, after any notifications, each completed write and each poll that finds something brings the session nearer to rest, so it rests after its rank and its empty polls together |
| SessionSettling.SettlesIn | app/HttpConnectionHandler.cpp:68-329 | in every world, whatever its clock, a run nudged that often rests, and then either a mishap is on record or its responses are those of the reference |
| SessionSettling.PatienceIsBounded | app/HttpConnectionHandler.cpp:235-265 | with a monotone clock and timers that do not fire early, polls in a row that find nothing are at most one for each 5 ms the task was given |
| SessionSettling.Settles | app/HttpConnectionHandler.cpp:68-329 | with such a clock and timers every run comes to rest within that bound, whatever goes wrong on the way and however long its tasks take; without a mishap its responses are those of the reference |
| SessionSettling.OnlyTimeInterferes | app/HttpConnectionHandler.cpp:68-329 | if nothing is refused and no collection throws, the only mishaps on the way are a read timeout or a task deadline that the clock can reach |
| SessionSettling.EverySiteIsServed | app/HttpConnectionHandler.cpp:68-329 | every application, with every mixture of immediate and later sends, every clock and every read timeout, has a world in which every delivery comes to rest within its rank and has the responses of the reference unless the read timeout struck, which takes a clock that runs past it |
| ConnectionHandler.HttpSession.FinishPendingRequest | app/HttpConnectionHandler.cpp:32-43 | releases the lease and records completion or abortion once; the new state is that of the specification |
| ConnectionHandler.HttpSession.CloseResourceRejected | app/HttpConnectionHandler.cpp:45-53 | aborts the request and closes; the new state is that of the specification |
| ConnectionHandler.HttpSession.CloseExpiredRequest | app/HttpConnectionHandler.cpp:55-61 | closes a session whose read deadline passed, and only then |
| ConnectionHandler.HttpSession.ClearReadDeadline | app/HttpConnectionHandler.cpp:63-66 | clears the session deadline and the connection timer together |
| ConnectionHandler.HttpSession.OnMessage | app/HttpConnectionHandler.cpp:68-214 | the whole receive path leaves object, connection and history as the specification says, through every nested send |
| ConnectionHandler.HttpSession.SendFinalResponse | app/HttpConnectionHandler.cpp:216-233 | sends, or handles the refusal, and when the send completes at once has already handled what follows |
| ConnectionHandler.HttpSession.ArmTaskContinuation | app/HttpConnectionHandler.cpp:235-243 | schedules the next poll at the earlier of 5 ms and the deadline |
| ConnectionHandler.HttpSession.OnTaskContinuation | app/HttpConnectionHandler.cpp:245-265 | polls, answers or re-arms as the specification says; a stale generation changes nothing |
| ConnectionHandler.HttpSession.OnRequestHeaders | app/HttpConnectionHandler.cpp:267-302 | admits, refuses or announces the headers of an Expect request as the specification says |
| ConnectionHandler.HttpSession.OnWriteComplete | app/HttpConnectionHandler.cpp:304-329 | moves on from an interim or final response and handles buffered input |
| ConnectionHandler.Drive | app/HttpConnectionHandler.cpp:68-329 | the objects driven by any list of notifications are in the state the run theorems speak about |
| SharedBudget.ResourceBudget.TryAcquire | src/base/ResourceBudget.cpp:95-119 | takes all three amounts or none, refuses for the first that does not fit and counts that refusal, keeps peaks |
| SharedBudget.ResourceBudget.Release | src/base/ResourceBudget.cpp:44-54 | gives back exactly what was taken |
| SharedBudget.Conservation | app/HttpConnectionHandler.cpp:32-53 | for any number of sessions and every interleaving the reserved request bytes are 1040 KiB for each lease held, and begun = completed + aborted + pending |
| SharedBudget.ReservationIsPendingRequests | app/HttpConnectionHandler.cpp:73-85 | between notifications the reservation is 1040 KiB for each session with a pending request and nothing else |
| SharedBudget.BalancedAtTheEnd | app/HttpConnectionHandler.cpp:26-43 | when every session is destroyed nothing is reserved and begun = completed + aborted |
| SharedBudget.Accountant.Perform | src/base/ResourceBudget.cpp:44-119 | one budget object follows each move of the server: a connection or request is granted exactly when TryAcquire finds room, every release gives back what is held, and its use stays that of the history |
| SharedBudget.Operate | src/base/ResourceBudget.cpp:44-119 | any list of moves of any number of connections leaves the budget with exactly what the open connections and held leases need |
| SharedBudget.NeverOverLimit | src/base/ResourceBudget.cpp:95-119 | in every reachable state connections and input in use are within the limits, and only open connections hold leases |
| SharedBudget.InterleavingIsServed | app/HttpConnectionHandler.cpp:26-85 | every interleaving of sessions of the program whose connections and requests the budget answers is a list of possible moves, and serving it gives that interleaving |
| SharedBudget.SessionsKeepTheLimits | app/HttpConnectionHandler.cpp:26-85 | so those sessions never exceed the limits, and only open connections hold leases |
| SharedBudget.AskGrantedIff | src/base/ResourceBudget.cpp:95-119 | in every reachable state a request is granted if and only if the open connections and one more lease fit the limit |
| SharedBudget.ConnectGrantedIff | src/base/ResourceBudget.cpp:95-119 | in every reachable state a connection is granted if and only if one more fits both limits |
| SharedBudget.MinimumBudgetAdmitsOne | app/ServerConfig.cpp:101-102 | in every reachable state with one connection its request is granted if and only if the input budget is at least the accepted minimum 1081344 |
| SharedBudget.EmptyServerAccepts | app/ServerConfig.cpp:101-102 | with that minimum a server without connections always accepts one, whatever happened before |
| SharedBudget.DefaultBudgetActiveRequests | README.md:146 | with the default 64 MiB and 128 open connections never more than 61 requests are active, and one more is granted exactly while fewer are |
| Management.RunInv | app/ManagementServer.cpp:22-127 | every interleaving of start, timeout, stop callers and the management thread keeps the invariant of mutex holder, published server, flags and marks |
| Management.Safety | app/ManagementServer.cpp:53-127 | a stop is never lost, the published pointer never outlives the server, and no thread about to lock the mutex holds it |
| Management.PortMeansStartedFirst | app/ManagementServer.cpp:22-83 | start returns a port only if the server reported that port before any stop was asked |
| Management.ThrowMeansJoined | app/ManagementServer.cpp:22-61 | when start has thrown, the management thread and its server are gone |
| Management.RunsAreShort | app/ManagementServer.cpp:22-127 | however the threads interleave and however often a stop is asked, the two threads take at most twenty-two steps |
| Management.StartNeverHangs | app/ManagementServer.cpp:22-51 | while start runs one of the two threads can always move, and a joined management thread is never left in a loop that was not told to stop |
| ManagementControl.ManagementServer.RequestStop | app/ManagementServer.cpp:53-57 | the critical section is the stop step of the protocol |
| ManagementControl.ManagementServer.Publish | app/ManagementServer.cpp:113-117 | publishing tells an already stopped server |
| ManagementControl.ManagementServer.OnStarted | app/ManagementServer.cpp:73-83 | success is recorded only if no stop was asked, otherwise the server is told to stop |
| ManagementControl.ManagementServer.RecordFailure | app/ManagementServer.cpp:85-97 | the first failure completes the start |
| ManagementControl.Threads.Turn | app/ManagementServer.cpp:22-127 | one step of either thread on the objects keeps the invariant, borrows no server but the one on the stack, and is the step of the protocol |
| ManagementControl.Drive | app/ManagementServer.cpp:22-127 | the objects driven by any interleaving are in the state the run theorems speak about |
| StageLedger.IndexOf | benchmark/tail-localization/budget_v10.py:296-296 | the first position of a run id among the slots, or their number |
| StageReservation.FindStop | benchmark/tail-localization/budget_v10.py:250-273 | the loop over a ledger finds the first record that stops new execution |
| StageReservation.Charged | benchmark/tail-localization/budget_v10.py:279-284 | the loop adds up charged seconds, reserved ones for unsettled runs, of the runs with a prefix |
| StageReservation.CheckLink | benchmark/tail-localization/budget_v10.py:292-349 | the slot checks refuse exactly as the gate says |
| StageReservation.CheckLedger | benchmark/tail-localization/budget_v10.py:274-354 | the checks against the own ledger, in order, refuse exactly as the gate says |
| StageReservation.Reservation.Admit | benchmark/tail-localization/budget_v10.py:227-354 | all checks in order; the lock is taken if and only if none refuses |
| StageReservation.Reservation.WriteLedger | benchmark/tail-localization/budget_v10.py:16-28 | the ledger is replaced through its temporary; one left behind makes the write fail |
| StageReservation.Reservation.Enter | benchmark/tail-localization/budget_v10.py:227-365 | an entry performs exactly the durable effects of the model, in order, and holds the lock if and only if it is admitted |
| StageReservation.Reservation.Leave | benchmark/tail-localization/budget_v10.py:378-409 | leaving settles the record, rewrites the ledger, frees the lock, and raises exactly when a temporary was in the way of the rewrite or the record is settled invalid without an exception of its own |
| StageLedgerRuns.WriteIsAtomic | benchmark/tail-localization/budget_v10.py:16-28 | a rewrite cut anywhere leaves the old ledger or the new one |
| StageLedgerRuns.EntryIsAtomic | benchmark/tail-localization/budget_v10.py:355-362 | an entry cut anywhere before its last effect changes no ledger |
| StageLedgerRuns.RunInv | benchmark/tail-localization/budget_v10.py:227-409 | every run of entries, exits and deaths keeps each ledger a list of records each admissible after its predecessors |
| StageLedgerRuns.OneRunning | benchmark/tail-localization/budget_v10.py:250-256 | at most one record of both ledgers is running, and it is the last of its ledger |
| StageLedgerRuns.RunIdsAreUnique | benchmark/tail-localization/budget_v10.py:274-275 | no role records a run id twice |
| StageLedgerRuns.SecondsAreConserved | benchmark/tail-localization/budget_v10.py:279-281 | a role exceeds its seconds by no more than the overrun of its last settled run, and by nothing while a run is under way |
| StageLedgerRuns.R008SecondsAreConserved | benchmark/tail-localization/budget_v10.py:282-291 | the same for the R008 share, and the builder leaves the M3 reserve alone |
| StageLedgerRuns.SlotsAreRespected | benchmark/tail-localization/budget_v10.py:276-354 | no kind exceeds its sample slots and there is no fourth baseline attempt |
| StageLedgerRuns.SamplesAreGated | benchmark/tail-localization/budget_v10.py:292-349 | every link sample was admitted when each earlier slot had exactly one record, a valid one, and no later slot had any |
| StageLedgerRuns.SamplesAscend | benchmark/tail-localization/budget_v10.py:292-349 | the link samples of a role stand at strictly increasing slots |
| StageLedgerRuns.DeadRunBlocksForever | benchmark/tail-localization/budget_v10.py:250-256 | a running record without a process blocks both roles: nothing on disk changes again, whatever is tried |
| StageLedgerRuns.UnknownBytesBlockForever | benchmark/tail-localization/budget_v10.py:257-273 | so does a settled record of unknown size until a matching receipt appears |
| StageLedgerRuns.HalfEntryBurnsItsId | benchmark/tail-localization/budget_v10.py:355-362 | a process that dies after making its directory and before its record leaves no ledger trace, and its run id is refused ever after |
| StageLedgerRuns.AdmittedIff | benchmark/tail-localization/budget_v10.py:227-357 | the ordered checks admit exactly the requests that meet the unordered list of conditions |
| StageLedgerRuns.LinkGatedIffAuthorized | benchmark/tail-localization/budget_v10.py:282-349 | the sample sequence is enforced if and only if the authorization has an R008 section; without one the second sample may go first |
| RegressionLedger.Charged | benchmark/regression/budget.py:39-56 | the loops accept exactly acceptable records and add entries and unknown disk records |
| RegressionLedger.ListingOrderIsIrrelevant | benchmark/regression/budget.py:46-56 | however the file system lists the records they are accepted alike and cost the same |
| RegressionReservation.Root.Reserve | benchmark/regression/budget.py:58-81 | a reservation is admitted exactly when free, new, chargeable and within the total, and then makes its four durable writes |
| RegressionReservation.Root.Finish | benchmark/regression/regression.py:71-76 | ending a run writes its last record and then settles its entry |
| RegressionRuns.CountedOnce | benchmark/regression/budget.py:39-56 | what is charged is the historic cost plus one amount for each reservation |
| RegressionRuns.RunInv | benchmark/regression/budget.py:58-92 | every run, cut anywhere, keeps entries, records and totals consistent |
| RegressionRuns.SecondsAreConserved | benchmark/regression/budget.py:58-92 | every admission leaves charged plus reserve within the total, and the excess is at most the overrun of the newest reservation |
| RegressionRuns.OnlyTearingBlocks | benchmark/regression/budget.py:39-56 | the ledger never makes itself unacceptable: only a record torn by a death stops later reservations |
| RegressionRuns.EntriesOnlyGrow | benchmark/regression/budget.py:70-92 | a reservation stays charged in full until its run has ended and then at its elapsed time; no other entry ever changes |
| Histogram.Correct | benchmark/regression/r006_histogram.py:44-51 | in place the loop computes the closed form, the running count stays the sum of all buckets, and it stops part-way exactly when a corrected bucket exceeds 64 bits |
| Histogram.Spread | benchmark/regression/r006_histogram.py:46-50 | the inner loop adds the responses of one bucket to all buckets whole intervals below it |
| Histogram.GainStep | benchmark/regression/r006_histogram.py:44-51 | raising the top by one adds its responses exactly to the buckets a whole number of intervals below |
| Histogram.Percentile | benchmark/regression/r006_histogram.py:25-32 | the scan returns the least bucket in range that reaches the rank, and falls through exactly when none does |
| Histogram.InsideIsFound | benchmark/regression/r006_histogram.py:25-32 | with all responses inside the recorded range every percentile below the hundredth is found |
| Histogram.FallsThroughIff | benchmark/regression/r006_histogram.py:25-32 | the scan falls through exactly when too many responses lie outside the range |
| Histogram.PileFallsThrough | benchmark/regression/r006_histogram.py:41-54 | a measurement whose minimum and maximum were really recorded, nearly all of its responses more than two intervals high and less than one above the minimum, is corrected below the minimum, and the 99th percentile falls through to 0 |
| Histogram.AlwaysFoundIff | benchmark/regression/r006_histogram.py:41-54 | over all histograms that attain their recorded range and whose interval is the duration divided by a 128th of the count, corrected percentiles are always found if and only if the minimum is at most one above the interval or the maximum at most twice it |
| Histogram.ClosedLoopIsFound | benchmark/regression/r006_histogram.py:41-54 | if the responses of 128 closed-loop connections fit the duration, the minimum is at most the interval and every corrected percentile is found |
| Intervals.IntervalUnion | benchmark/tail-localization/analyze.py:10-19 | strictly separated intervals with the same cover, open and closed; absent exactly when one interval is reversed |
| Intervals.IntersectionDuration | benchmark/tail-localization/analyze.py:22-24 | the number of instants of the window at which some activity is under way |
| Intervals.OverlapCounts | benchmark/tail-localization/analyze.py:22-24 | for separated intervals the overlaps add up to the covered instants |
| Intervals.DurationIgnoresOrderAndRepetition | benchmark/tail-localization/analyze.py:10-24 | order and repetition of the activities do not matter |
| Intervals.DurationIsMonotone | benchmark/tail-localization/analyze.py:22-24 | more activity or a longer window never counts for less |
| Intervals.DurationAdds | benchmark/tail-localization/analyze.py:22-24 | windows that meet add up |
| Intervals.AnalyzeRequest | benchmark/tail-localization/analyze.py:110-129 | accepted exactly when both endpoints are in order, the body verified and no activity reversed; then 0 <= residual <= latency, activity plus residual is the latency, and the four signed spans add up to it |
| Supervision.Supervisor.FindMembers | benchmark/regression/supervision.py:39-56 | the loops, over any listing of the table, end with the least closed set around remembered and adopted processes, and remember it |
| Supervision.Supervisor.Signal | benchmark/regression/supervision.py:58-66 | a member is signalled exactly if it was no zombie and its start time is unchanged when looked up again |
| Supervision.MembersAreLeast | benchmark/regression/supervision.py:39-56 | the members are the least set around the base that is closed under children |
| Supervision.AlwaysExactIff | benchmark/regression/supervision.py:39-56 | every look of every run finds exactly the descendants of the command if and only if no earlier child of the wrapper is running at launch and, while the command runs, there was none at all |
| Supervision.FreshExactIff | benchmark/regression/supervision.py:39-56 | over the runs that give out no pid of an earlier child again, every look is exact if and only if no earlier child is running at launch |
| Supervision.TakeoverMisleads | benchmark/regression/supervision.py:45-47 | a descendant that gets the pid of an earlier child and loses its parent is missed |
| Supervision.StepKernel | benchmark/regression/supervision.py:39-56 | every fork, exit, reap and observation keeps the kernel invariant, with pids given out again under new start times |
| Supervision.MembersAreExactlyTheDescendants | benchmark/regression/supervision.py:39-56 | over every run in which the earlier descendants rest, each look finds only descendants, and all of them if and only if none came to the wrapper unseen under the pid of an earlier child; so all, if no such pid was given out again |
| Supervision.OnlyDescendantsAreSignalled | benchmark/regression/supervision.py:58-66 | a signal reaches only a descendant, even if the listed process is gone and its pid belongs to another by then |
| Supervision.ReapedMeansGone | benchmark/regression/supervision.py:78-93 | after any run, when cleanup reports all reaped no descendant is left if and only if none came to the wrapper unseen under the pid of an earlier child; so none, if no such pid was given out again |
| Supervision.AliveChildMisleads | benchmark/regression/supervision.py:45-47 | any earlier child running at launch that forks and dies has its orphan taken for a descendant of the command |
| EventProbe.Recorder.Observe | benchmark/regression/r006_event_probe.c:39-50 | one observed call changes the slot of its thread, and takes a slot at the first call, as the specification says |
| EventProbe.WordsReadBack | benchmark/regression/r006_decode_event.py:12-22 | a 64-bit word written little-endian is read back at its offset |
| EventProbe.SignedUnsigned | benchmark/regression/r006_decode_event.py:25-25 | a signed result survives its unsigned storage |
| EventDecoder.ReadTrace | benchmark/regression/r006_decode_event.py:12-26 | the decoder loops compute the decoding function |
| EventDecoder.DumpReadsBack | benchmark/regression/r006_decode_event.py:12-26 | decoding a dump gives back slots and events field for field, and refuses exactly for dropped events, too many threads or repeated tids |
| EventDecoder.WriteAll | benchmark/regression/r006_event_probe.c:55-59 | partial writes leave a prefix, and the whole when all succeed |
| EventDecoder.CutFileIsRefused | benchmark/regression/r006_decode_event.py:14-14 | nothing but a complete file is accepted |
| EventTraces.FilledMeans | benchmark/regression/r006_event_probe.c:39-50 | a slot counts every call and keeps the maximum of each kind, the first 2048 slow calls in order, and the number dropped |
| EventTraces.RecordedSlots | benchmark/regression/r006_event_probe.c:39-50 | however calls interleave each slot holds what its thread alone would have left there |
| EventTraces.NextCounts | benchmark/regression/r006_event_probe.c:39-42 | however calls interleave the slot counter is the number of different threads heard |
| EventTraces.AcceptedIff | benchmark/regression/r006_decode_event.py:12-26 | a trace is accepted if and only if at most sixteen threads were heard, none made more slow calls than a slot keeps and no two share a tid |
| EventTraces.AcceptedIsComplete | benchmark/regression/r006_decode_event.py:16-26 | in an accepted trace the events of each thread are exactly its slow calls, every field, in order |
| ServerConfig.ApplyField | app/ServerConfig.cpp:73-120 | a field is set if and only if its value is accepted, and nothing else changes |
| ServerConfig.ApplyAll | app/ServerConfig.cpp:168-169 | a layer is applied, in whatever order, if and only if every value of it is accepted |
| ServerConfig.OverlayTwice | app/ServerConfig.cpp:167-169 | two layers are one layer in which the later wins |
| CommandLine.ReadOption | app/ServerConfig.cpp:138-164 | one option with its value is accepted or refused as one step of the specification |
| CommandLine.ReadArguments | app/ServerConfig.cpp:132-165 | the loop over the arguments collects exactly the options the specification does |
| CommandLine.ResolveOptions | app/ServerConfig.cpp:131-174 | the outcome is that of the layered specification, failures included |
| CommandLine.LayersInOrder | app/ServerConfig.cpp:166-174 | every field has the command line value, else the file value, else the default; --no-admin leaves no admin port; both sources hold only accepted values; port and root were given |
| CommandLine.OutcomeInRange | app/ServerConfig.cpp:80-120 | every option of an accepted outcome is within its range |
| CommandLine.OrderIsIrrelevant | app/ServerConfig.cpp:137-165 | the same options in any order have the same outcome |
| AccessLog.AppendJsonString | app/AccessLog.cpp:15-31 | the loop appends the quoted, escaped string |
| AccessLog.AccessRecord.CopyRequest | app/AccessLog.cpp:34-41 | the path is a prefix of the target up to its query or fragment, truncated exactly when that part is longer than 96; nothing else changes |
| AccessLog.AccessRecord.Serialize | app/AccessLog.cpp:43-57 | the line of the record; the length error cannot occur |
| AccessLog.QuotedReadsBack | app/AccessLog.cpp:15-31 | a reader written from section 7 of RFC 8259 gets back the exact bytes and stops at the closing quote |
| AccessLog.LineReadsBack | app/AccessLog.cpp:43-53 | a line read back gives every field of the record it was made from |
| AccessLog.LineFits | app/AccessLog.cpp:11-13 | every line is printable ASCII and at most 855 of 1024 characters |

## Left out

- The grammar of request lines, header lines, chunk sizes and trailers (src/http/HttpRequest.cpp:16-300) is a parameter of the parser: every theorem holds for any such grammar, but the grammar itself is not modelled.
- Parser statistics (scan steps, peak buffering) and the zero-copy response path, which change nothing a client sees.
- Idle and keep-alive timers of the connection, socket reads and writes themselves, and the acceptor: they reach the session as notifications.
- Request metrics other than begun, completed and aborted, and the logger threads.
- Handlers behind the session (static files, business tasks, the bounded executor, administration pages): the session sees only their answers.
- ManagementServer: the wait has no clock and may time out at any moment before completion.
- SharedBudget.Operate: the output share of the budget, which queued responses take and give back, is not driven; connections and input bytes are.
- StageLedgerRuns: hash checks, the output scan, the association files and the receipts are answers of the environment; the periodic guard is left out because it only ends a run early.
- StageLedgerRuns.LinkGatedIffAuthorized: the refusals of the later versions budget_v11 to budget_v17 are not modelled.
- RegressionRuns: reservation ids are assumed new each time, as random identifiers are meant to be; records of other tools appear only before the first reservation.
- Histogram: compression and the capture by a debugger are left out; the float division by 1000 is left out, buckets are reported as whole microseconds.
- Intervals.AnalyzeRequest: grouping events by connection and sequence, and requests cut by the recording boundary, are left out.
- Supervision.Supervisor.FindMembers: the process table is one snapshot, although it is listed file by file; a pid is not given out again within the clock tick in which the wrapper wrote it down.
- Supervision.ReapedMeansGone: the grace periods of the cleanup are left out; they decide only how long it waits.
- EventProbe.Recorder.Observe: the count of unpaired epoll calls and the wrap-around of the 64-bit counters and of the 32-bit slot counter are left out.
- EventDecoder.ReadTrace: the window filter, the sort by duration and the conversion to milliseconds happen after what is modelled.
- CommandLine.ResolveOptions: reading and parsing the JSON file and checking UTF-8 are answers of the environment.
- Load generators, build scripts, benchmark schedules and the repeated histogram and ledger copies: more of the same, or plumbing around it.
