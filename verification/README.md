# MysqlGear: a verified model

MysqlGear accepts SQL statements over TCP, acknowledges them as soon as they are queued, and runs them on a
pool of threads against a pool of database connections. This project models the pieces on which that
promise rests and proves what they guarantee, for every interleaving of their threads, every byte stream and
every way of cutting it into receives, and every answer of the database.

| file | what it holds |
|---|---|
| `ThreadPool.dfy` | the worker pool as a machine; one step is one access to shared memory |
| `ThreadPoolProofs.dfy`, `ThreadPoolTheorems.dfy` | its inductive invariant; its guarantees over all runs |
| `ThreadPoolObject.dfy` | the shared fields as an object, one method per atomic section, each proved to make the machine's step |
| `ParallelLoop.dfy` | the block arithmetic of `parallelize_loop` as a loop, and its blocks under any scheduling |
| `LockedQueue.dfy` | the mutex-guarded queue |
| `FrameDecoder.dfy`, `FrameTheorems.dfy` | the wire protocol as a decoder of one byte at a time, and what it guarantees |
| `ClientHandler.dfy` | the buffered connection handler as an object, proved to refine that decoder |
| `StatusReply.dfy` | the status text, its one-byte length prefix, and the client that reads it |
| `Escape.dfy` | the escaping of the sample client against the rules by which MySQL reads a literal |
| `Failover.dfy` | the choice of a database server, as an object and over any number of connects |
| `OutputHandler.dfy` | a database task, a pass of the dispatch loop and the drain at shutdown, in imperative form |
| `Pipeline.dfy` | the wired program: two pools, connections, shared queue, dispatcher, tasks, shutdown order |
| `PipelineProofs.dfy`, `PipelineTheorems.dfy` | its inductive invariant; its guarantees over all runs |
| `PipelineRuns.dfy` | runs of the wired program that do occur, and when the maximum of connections bounds its tasks |
| `PipelineOrder.dfy` | the order in which the wired program hands queries on |
| `PipelineExit.dfy` | a whole life of the program, from start to exit |
| `Bags.dfy`, `Common.dfy` | multisets gathered from the elements of a sequence; what several modules share |

How the pieces hang together: a machine state holds the shared variables, one program counter for each
thread, and histories (what was pushed, started, executed). A run is any sequence of enabled steps. `Inv`
holds at the start and is kept by every step; the theorems are read off it. In `Pipeline` each of the two
pools is a `ThreadPool` state, and what a connection may push is what `FrameDecoder` decodes from the bytes
it has received, so the pool's and the protocol's theorems carry over to the whole program.

Assumptions: shared variables are read and written atomically and in program order. `std::uint_fast32_t` has
64 bits, and fewer than 2^64 tasks are outstanding at once. C++ leaves the order of the two operands of
`tasks_total - get_tasks_queued()` open; the counter is taken to be read first. The machine is
little-endian. The database answers in any way it likes; a statement that fails has no effect.

## What the proofs brought to light

- **A paused wait is weak.** A worker that read `paused == false` just before the pause pops a task after the
  paused `wait_for_tasks` has returned (`WorkerPopsAfterPausedWait`, a run from the start). Old workers can
  start a task at that point if and only if one of them is about to pop and something is queued
  (`StartsAfterPausedWaitIff`), and during the pause no more start than were about to pop
  (`PauseStartsAtMost`). `reset` is safe all the same, because it joins every worker before it replaces the
  threads.
- **`get_tasks_running` can miss running tasks, or wrap around,** when another client pushes between its two
  reads: it can answer 0 while a task runs (`SecondPusherUndercounts`), or 2^64 - 1 while none does
  (`SecondPusherWraps`). `CountAgainstTruth` gives the exact conditions. The dispatcher is the only pusher of
  its pool, so its guard sees every running task.
- **The guard does not keep the tasks within the maximum of connections.** It tests running tasks, not queued
  ones, and the pool has one thread more than there are connections. Whatever the maximum, some run has one
  task more at once, whenever the program can deliver at all (`MaximumExceededIff`); more than that never run
  (`TasksBoundedByThreads`). A guard on the counter itself would keep the maximum
  (`CounterBelowMaximumSuffices`, `OutstandingWithinIff`).
- **The retry limit never limits.** A failed attempt is counted on a copy that is not put back, so every queued
  entry has 0 attempts: the limit drops an entry exactly when it would drop every entry at first sight
  (`ReasonsForDropping`).
- **A dead branch.** In the wired program no task ever finds the connection pool missing, so the branch whose
  log text says "rescheduling" but which drops the entry is never taken (`ReasonsForDropping`).
- **No failover while running.** `connect` never meets a live pool, so no failed ping moves the program to
  another server; and a pool whose start throws stays in place all the same, so no later connect happens
  (`PoolIsOpenedOnce`, `FirstPoolIsTheLast`). The dispatcher comes back for another server only while none is
  viable or while building the pool object throws.
- **`setConnectionFaulty` marks no server but the first.** `FailedPingMarksOnlyTheFirst` and
  `FailedServerPickedAgainIff` say when a server that has just failed is picked again at once.
- **Connect and control frames hang a connection.** They have a header but no handler, so the next byte makes
  the scan repeat for ever. A type byte above 127 is negative and indexes the header table outside its bounds.
  A peer that closes in the middle of a header leaves the receive loop spinning. `ClientHandler.RunConnection` says
  exactly when each happens.
- **The sample script gets no status.** It sends no protocol byte, so the current handler takes its request for
  the protocol byte and part of a connect header, and the '1' it answers is read as a length of 49; the earlier
  handler sends nothing at all (`SampleScriptGetsNoStatus`). The script waits for that answer before it sends
  its query; a client that sent both frames at once would hang either handler (`SampleFramesHangBoth`).
- **A status text longer than 127 bytes cannot be read back**; with counters below 2^32 it has at most 120
  (`PrefixFitsIff`, `StatusRoundTrip`).
- **An escaped string is stored with a backslash before each `_` and `%`**
  (`EscapedLiteralClosesAtItsQuote`, `UnchangedIffNoPatternChar`).

## Model

| member | source | states |
|---|---|---|
| `ThreadPoolTheorems.CounterIsExact` | src/utils/threadpool/thread_pool.hpp:161-168 | in every interleaving `tasks_total` is the number of tasks queued, popped but not counted off, and counted but not yet queued; no decrement wraps |
| `ThreadPoolTheorems.TaskInExactlyOnePlace` | src/utils/threadpool/thread_pool.hpp:343-354 | every push begun is in exactly one of: on its way, queued, running, finished |
| `ThreadPoolTheorems.StartsInOrderAndOnce` | src/utils/threadpool/thread_pool.hpp:371-386 | started tasks followed by the queue are the tasks in enqueue order; no task starts twice |
| `ThreadPoolTheorems.AtMostThreadCountRun` | src/utils/threadpool/thread_pool.hpp:318-324 | at most `thread_count` task bodies run at once |
| `ThreadPoolTheorems.UnpausedWaitIsSound` | src/utils/threadpool/thread_pool.hpp:278-286 | when the unpaused wait returns, every task pushed before its read has finished, then and ever after |
| `ThreadPoolTheorems.PausedWaitIsSound` | src/utils/threadpool/thread_pool.hpp:287-294 | with no push begun between its two reads, a paused wait returns if and only if no worker holds a task, no push is on its way and nothing was counted off in between |
| `ThreadPoolTheorems.DestructorRunsEverything` | src/utils/threadpool/thread_pool.hpp:59-64 | an unpaused destructor without a later push leaves every thread exited, the queue empty and every task run exactly once |
| `ThreadPoolTheorems.QueueKeepsOrder` | src/utils/threadpool/thread_pool.hpp:343-354 | over any stretch of a run, what is started is a prefix of the old queue followed by the arrivals, and what is left is the rest in order |
| `ThreadPoolTheorems.ResetStartsNoWorkerEarly` | src/utils/threadpool/thread_pool.hpp:329-335 | `reset` replaces its threads only when every old worker has exited, whatever those did after the wait |
| `ThreadPoolTheorems.ResetIsTransparent` | src/utils/threadpool/thread_pool.hpp:191-203 | a completed `reset` loses, duplicates and reorders no task, restores the pause flag and runs the requested number of threads |
| `ThreadPoolTheorems.ResetWaitsForRunning` | src/utils/threadpool/thread_pool.hpp:194-196 | if no worker was about to pop when the pause of `reset` began and no push begins meanwhile, then after its wait no worker holds a task |
| `ThreadPoolTheorems.PauseStartsAtMost` | src/utils/threadpool/thread_pool.hpp:194-200 | during the pause of a `reset`, whatever clients and workers do, no more tasks start than there were workers past their read of `paused` and not yet at work |
| `ThreadPoolTheorems.StartsAfterPausedWaitIff` | src/utils/threadpool/thread_pool.hpp:195-196 | once the paused wait of `reset` has returned, the old workers can start a task if and only if one of them is about to pop and something is queued |
| `ThreadPoolTheorems.CountAgainstTruth` | src/utils/threadpool/thread_pool.hpp:86-89 | with any number of pushers, the value returned covers the tasks held by workers without having wrapped if and only if the pushes begun since its first read do not outnumber completions since and pushes on their way; it wraps if and only if the queue has outgrown the counter read |
| `ThreadPoolTheorems.SolePusherCountIsSound` | src/utils/threadpool/thread_pool.hpp:75-89 | for a sole pusher the value does not wrap and is at least the number of tasks running at the second read |
| `ThreadPoolTheorems.WorkerPopsAfterPausedWait` | src/utils/threadpool/thread_pool.hpp:376 | a run in which a worker pops a task after the paused wait of `reset` has returned |
| `ThreadPoolTheorems.SecondPusherUndercounts` | src/utils/threadpool/thread_pool.hpp:88 | a run in which a second pusher makes the value 0 while a task runs |
| `ThreadPoolTheorems.SecondPusherWraps` | src/utils/threadpool/thread_pool.hpp:88 | a run in which a second pusher makes the value 2^64 - 1 while nothing runs |
| `ThreadPoolTheorems.WorkersAsAsked` | src/utils/threadpool/thread_pool.hpp:50-54 | a ready pool that was never reset has as many workers as were asked for, or as the hardware has when none were |
| `ThreadPoolTheorems.WorkersCanFinish` | src/utils/threadpool/thread_pool.hpp:371-386 | no work gets stuck: from every reachable ready, unpaused state with a worker and no push on its way, some run of the workers alone finishes every task pushed |
| `ThreadPoolTheorems.OutstandingWithinIff` | src/utils/threadpool/thread_pool.hpp:161-168 | all through a run the tasks queued, held or on their way stay within a limit if and only if every push begins with the counter below it |
| `ThreadPoolProofs.StepKeepsInv` | src/utils/threadpool/thread_pool.hpp:161-203 | every step of every thread keeps the pool's invariant |
| `ThreadPoolProofs.ZeroMeansAllDone` | src/utils/threadpool/thread_pool.hpp:284-285 | a counter that reads zero means that nothing is queued, held or on its way, and everything pushed has finished |
| `ThreadPoolObject.Pool.constructor` | src/utils/threadpool/thread_pool.hpp:50-54 | the fresh fields are those of the machine's first state, zero threads meaning the hardware's number |
| `ThreadPoolObject.Pool.CountPush` | src/utils/threadpool/thread_pool.hpp:163 | the increment makes the machine's first step of a push |
| `ThreadPoolObject.Pool.Enqueue` | src/utils/threadpool/thread_pool.hpp:164-167 | the locked section makes the machine's second step of a push |
| `ThreadPoolObject.Pool.PushTask` | src/utils/threadpool/thread_pool.hpp:161-168 | a push as its caller sees it: counted once, appended at the end |
| `ThreadPoolObject.Pool.PopTask` | src/utils/threadpool/thread_pool.hpp:343-354 | the locked section makes the worker's step: the oldest task is handed over, or there was none |
| `ThreadPoolObject.Pool.CountDone` | src/utils/threadpool/thread_pool.hpp:379 | the decrement makes the worker's last step |
| `ThreadPoolObject.Pool.TasksRunning` | src/utils/threadpool/thread_pool.hpp:86-89 | the second read and the subtraction make the client's last step |
| `ThreadPoolObject.Pool.OwnerStep` | src/utils/threadpool/thread_pool.hpp:191-203 | the owner's writes in `reset` and the destructor make the machine's owner steps |
| `ParallelLoop.Split` | src/utils/threadpool/thread_pool.hpp:122-147 | for any range in either argument order and any task count, the blocks are nonempty, contiguous and cover the range, all but the last have the block size, and the last has fewer than block size plus task count indices |
| `ParallelLoop.TilesCoverOnce` | src/utils/threadpool/thread_pool.hpp:138-144 | consecutive blocks hold every index of the range exactly once and no other |
| `ParallelLoop.ReturnMeansEveryIndexOnce` | src/utils/threadpool/thread_pool.hpp:135-152 | under every scheduling, when the caller returns the body has been called exactly once for each index and for no other |
| `ParallelLoop.NeverCalledTwice` | src/utils/threadpool/thread_pool.hpp:141-146 | at no moment of any run has an index been called twice or one outside the range been called |
| `ParallelLoop.BlockCountNeverWraps` | src/utils/threadpool/thread_pool.hpp:140-145 | `blocks_running` is positive at every decrement |
| `LockedQueue.Queue.Push` | src/utils/lockedqueue/LockedQueue.h:20-23 | appends at the end |
| `LockedQueue.Queue.Pop` | src/utils/lockedqueue/LockedQueue.h:27-35 | takes the oldest element; the caller must know that there is one |
| `LockedQueue.Queue.Clear` | src/utils/lockedqueue/LockedQueue.h:37-43 | the loop ends with an empty queue |
| `LockedQueue.Queue.Empty` | src/utils/lockedqueue/LockedQueue.h:45-48 | true exactly when the queue holds nothing |
| `LockedQueue.Queue.Size` | src/utils/lockedqueue/LockedQueue.h:50-53 | the number of elements |
| `FrameDecoder.FeedSplit` | src/input/inputs/GearStreamClientHandler.cpp:58-71 | decoding a stream in two pieces is decoding it at once |
| `FrameDecoder.FeedHeader` | src/input/inputs/GearStreamClientHandler.cpp:107-121 | a complete header is acted upon as a whole |
| `FrameDecoder.FeedPayload` | src/input/inputs/GearStreamClientHandler.cpp:193-215 | payload bytes are collected until the announced size, then accepted as one query |
| `FrameDecoder.FeedGap` | src/input/inputs/GearStreamClientHandler.cpp:93-105 | bytes that are no frame type are skipped between frames |
| `FrameDecoder.FeedAppends` | src/input/inputs/GearStreamClientHandler.cpp:206-207 | more input only appends queries and replies |
| `FrameTheorems.UnpackPack` | src/input/inputs/GearStreamClientHandler.cpp:116-119 | reading a packed length gives the length back, for all lengths below 2^32 |
| `FrameTheorems.PackUnpack` | src/exmaple_client.php:57 | packing a read length gives the four bytes back |
| `FrameTheorems.RoundTrip` | src/exmaple_client.php:57-59 | protocol byte 1 and any list of queries shorter than 2^32 bytes, with unrecognised bytes between the frames, decode to exactly that list in order, each acknowledged, the decoder at the start of a frame |
| `FrameTheorems.OneAnswerEach` | src/input/inputs/GearStreamClientHandler.cpp:73-91 | on every stream: one answer to the protocol byte, one for each query, one for each status request, and no other while the connection is open |
| `FrameTheorems.LeastSignificantFirst` | src/input/inputs/GearStreamClientHandler.cpp:118 | the header bytes are the base-256 digits of the length, least significant first |
| `FrameTheorems.EachStatusIsItsOwn` | src/input/inputs/GearStreamClientHandler.cpp:135-192 | on every stream the n-th status reply carries the counters read for it and no other |
| `FrameTheorems.StatusFrameIsAnswered` | src/input/inputs/GearStreamClientHandler.cpp:135-192 | type 1 and four bytes are answered with one status and leave the decoder at the start of a frame |
| `FrameTheorems.AnsweredExactly` | src/input/inputs/GearStreamClientHandler.cpp:56-241 | a connection counts as answered if and only if a query was queued, a status was sent, or the protocol byte was refused |
| `FrameTheorems.AnswersToFrames` | src/input/inputs/GearStreamClientHandler.cpp:202-241 | for any list of queries, what is sent in all is one acknowledgement for the protocol byte and one for each query, then '0' if and only if there was no query |
| `FrameTheorems.RefusedForGood` | src/input/inputs/GearStreamClientHandler.cpp:73-83 | a connection that opens with any byte but 1 is answered '0', and nothing it sends is queued or answered |
| `FrameTheorems.UnhandledFrameHangs` | src/input/inputs/GearStreamClientHandler.cpp:130-134 | a connect or control frame, and for the earlier handler a status frame, hangs the scan at the byte after its header |
| `FrameTheorems.NegativeTypeReadsOutside` | src/input/inputs/GearStreamClientHandler.cpp:94-108 | a type byte above 127 leads outside the header table at the next byte |
| `FrameTheorems.HandlersAgreeIffNoStatus` | src/input/inputs/GearStreamClientHandlerThread.cpp:65-154 | on every stream the current handler after byte 1 queues the same and answers '1' and then the same as the earlier handler, if and only if the stream completes no status header |
| `FrameTheorems.SampleScriptGetsNoStatus` | src/exmaple_client.php:28-40 | what either handler has sent and where it stands after the first frame of the sample script: in neither case a status the script could read, and no query |
| `FrameTheorems.SampleFramesHangBoth` | src/input/inputs/GearStreamClientHandler.cpp:130-134 | the two frames of the sample script sent without reading in between leave either handler scanning for ever with no query queued |
| `ClientHandler.RunConnection` | src/input/inputs/GearStreamClientHandler.cpp:23-246 | however the stream is cut into receives of 1 to 2047 bytes, queries queued, replies sent and the way the handler ends are those of the byte-at-a-time decoder, for both handlers; '0' is sent last if and only if the handler returns, no query was queued, no status was sent and the protocol byte was absent or accepted |
| `ClientHandler.RunFrames` | src/input/inputs/GearStreamClientHandler.cpp:23-246 | protocol byte 1 and any list of queries, cut up in any way, are queued in order behind what was queued before, and the handler returns having sent exactly their acknowledgements, or the last-resort answer when there was no query |
| `ClientHandler.Handler.constructor` | src/input/inputs/GearStreamClientHandler.cpp:24-57 | a fresh handler stands for a decoder that has seen nothing |
| `ClientHandler.Handler.TakeProto` | src/input/inputs/GearStreamClientHandler.cpp:73-91 | the protocol byte is handled as the decoder handles it |
| `ClientHandler.Handler.TakeType` | src/input/inputs/GearStreamClientHandler.cpp:93-105 | a type byte is handled as the decoder handles it |
| `ClientHandler.Handler.ParseHeader` | src/input/inputs/GearStreamClientHandler.cpp:108-121 | parsing the header leaves the handler due to do what the decoder does at the last header byte |
| `ClientHandler.Handler.AnswerStatus` | src/input/inputs/GearStreamClientHandler.cpp:135-192 | one status reply, then all parser flags are at the start of a frame |
| `ClientHandler.Handler.AcceptQuery` | src/input/inputs/GearStreamClientHandler.cpp:202-214 | the query is queued and acknowledged, then all parser flags are at the start of a frame |
| `ClientHandler.Handler.ReadPayload` | src/input/inputs/GearStreamClientHandler.cpp:195-201 | the loop appends exactly the bytes it passes and stops at the payload's or the buffer's end |
| `ClientHandler.Handler.HandleMessage` | src/input/inputs/GearStreamClientHandler.cpp:130-217 | the switch has the effect of feeding the bytes it consumes |
| `ClientHandler.Handler.TakeHeader` | src/input/inputs/GearStreamClientHandler.cpp:107-128 | a complete header and what follows of its message have the effect of feeding those bytes, and the scan moves on |
| `ClientHandler.Handler.Scan` | src/input/inputs/GearStreamClientHandler.cpp:69-220 | the scan terminates or is recognised as endless; feeding what it leaves unread completes feeding the whole buffer; what it leaves is an incomplete header |
| `ClientHandler.Handler.Receive` | src/input/inputs/GearStreamClientHandler.cpp:59-229 | one turn of the loop feeds the bytes received; at most 9 bytes are carried over, 3 unless a connect header is incomplete, so the copy stays inside the 4096 bytes |
| `ClientHandler.Handler.CopyIn` | src/input/inputs/GearStreamClientHandler.cpp:64 | the received bytes follow the bytes carried over |
| `ClientHandler.Handler.CarryOver` | src/input/inputs/GearStreamClientHandler.cpp:226-229 | exactly the unread bytes move to the front |
| `ClientHandler.Handler.ReceiveNothing` | src/input/inputs/GearStreamClientHandler.cpp:60-63 | after the peer has closed the loop ends if and only if nothing was carried over; otherwise the turn changes nothing |
| `ClientHandler.Handler.Serve` | src/input/inputs/GearStreamClientHandler.cpp:58-235 | flags, partial payload and carried bytes after any chunks stand for the decoder on their concatenation |
| `ClientHandler.Handler.Close` | src/input/inputs/GearStreamClientHandler.cpp:231-246 | how the handler ends, and that it sends '0' at its end if and only if it returns unanswered |
| `StatusReply.StatusTextIsJoin` | src/input/inputs/GearStreamClientHandler.cpp:137-175 | the streamed text holds at its eleven places, joined by semicolons, queue size, maximum and active connections, and threads, running, queued and total of the client pool and of the task pool, 0 standing for a null source |
| `StatusReply.PrefixFitsIff` | src/input/inputs/GearStreamClientHandler.cpp:177-184 | the client recovers the text behind the signed one-byte prefix if and only if it has at most 127 bytes |
| `StatusReply.StatusRoundTrip` | example/client/php/src/status.php:13-29 | with counters below 2^32 the text has at most 120 bytes and the client reads each counter back at its place, and 0 at the places of a null source |
| `StatusReply.WireReadsBack` | src/exmaple_client.php:32-40 | the client obtains the values of a status reply if and only if their text has at most 127 bytes |
| `StatusReply.ExplodeJoin` | example/client/php/src/status.php:13 | splitting joined decimals at the semicolons gives the decimals |
| `StatusReply.DecimalReadsBack` | src/input/inputs/GearStreamClientHandler.cpp:140 | a streamed number consists of digits and reads back as itself |
| `Escape.EscapedLiteralClosesAtItsQuote` | src/exmaple_client.php:3-20 | for every string, the literal in single or double quotes around its escape closes exactly at the last quote and denotes the string with a backslash before each `_` and `%` |
| `Escape.EscapeIsInjective` | src/exmaple_client.php:3-20 | strings with equal escapes are equal |
| `Escape.EscapeLeavesNothingRaw` | src/exmaple_client.php:5-17 | an escaped string holds none of the control characters of the map, and is the string itself if and only if it holds none of the eleven characters replaced |
| `Escape.UnchangedIffNoPatternChar` | src/exmaple_client.php:14-15 | the server stores the string itself if and only if it holds no `_` and no `%` |
| `Failover.LibzdbHandler.constructor` | src/utils/libzdb/LibzdbHandler.cpp:164-166 | no pool, no marks, and an index that holds anything |
| `Failover.LibzdbHandler.SetConnectionFaulty` | src/utils/libzdb/LibzdbHandler.cpp:52-60 | for index 0 of a nonempty list the first mark becomes the clock and all others stay; for any other index nothing changes |
| `Failover.LibzdbHandler.SetViableConnectionConfigIndex` | src/utils/libzdb/LibzdbHandler.cpp:62-73 | the loop finds the first viable server, and leaves the index alone if there is none |
| `Failover.LibzdbHandler.Disconnect` | src/utils/libzdb/LibzdbHandler.cpp:94-105 | afterwards there is no pool |
| `Failover.LibzdbHandler.GetConnection` | src/utils/libzdb/LibzdbHandler.cpp:75-83 | every failure is the one exception; a connection is counted out exactly when one is given |
| `Failover.LibzdbHandler.ReturnConnection` | src/utils/libzdb/LibzdbHandler.cpp:85-92 | a connection is counted back while the pool lives |
| `Failover.LibzdbHandler.ConnectTo` | src/utils/libzdb/LibzdbHandler.cpp:107-162 | marks, index and pool after a connect, for every ping, clock and outcome of opening: a live pool that answers is kept; otherwise the chosen server is marked if and only if opening threw, no other mark changes, and a pool exists if and only if building it did not throw |
| `Failover.FirstViable` | src/utils/libzdb/LibzdbHandler.cpp:66-71 | the first viable server: it is viable and none before it is, or none is |
| `Failover.ViableMeansExpired` | src/utils/libzdb/LibzdbHandler.cpp:67 | with a clock that has not gone back, viable is unmarked or marked more than 30 s ago |
| `Failover.ViableExactly` | src/utils/libzdb/LibzdbHandler.cpp:67 | the same for any two clock readings, with the unsigned difference wrapping |
| `Failover.ChoosesFirstExpired` | src/utils/libzdb/LibzdbHandler.cpp:107-131 | in every run the chosen server is unmarked or was marked more than 30 s ago, and every server before it was marked within the last 30 s |
| `Failover.MarkedServerIsLeftAlone` | src/utils/libzdb/LibzdbHandler.cpp:152-156 | in every run a server marked at t is not chosen before t + 30 s has passed |
| `Failover.FailedOpeningIsMarked` | src/utils/libzdb/LibzdbHandler.cpp:152-156 | a server whose pool could not be built or started is marked with the time of the failure; every other mark, and the mark of a server that opened, is as the search saw it |
| `Failover.FailedOpeningIsLeftAlone` | src/utils/libzdb/LibzdbHandler.cpp:152-156 | in every run a server whose opening failed at t is not chosen before t + 30 s has passed |
| `Failover.LivePoolHasAServer` | src/utils/libzdb/LibzdbHandler.cpp:123-130 | in every run a live pool belongs to a server of the list |
| `Failover.RunKeepsSound` | src/utils/libzdb/LibzdbHandler.cpp:107-162 | no mark ever lies in the future or goes back |
| `Failover.FailedPingMarksOnlyTheFirst` | src/utils/libzdb/LibzdbHandler.cpp:53 | a failed ping marks its server if and only if that is the first of the list |
| `Failover.FailedServerPickedAgainIff` | src/utils/libzdb/LibzdbHandler.cpp:111-123 | exactly when the server that has just failed its ping is chosen again in the same call |
| `OutputHandler.Task` | src/output/OutputHandler.cpp:30-111 | no pool or a failed getConnection drops the entry, a null connection or a deadlock puts it back once and as it was, another error drops it with the attempt counted on the local copy only, success keeps it out of the queue; the connection taken is given back once on every path |
| `OutputHandler.JobRunsLikeTask` | src/output/OutputHandler.cpp:30-111 | a job of the machine that runs alone returns, and in each of those cases does to queue, histories and connections what the task method does |
| `OutputHandler.DispatchPass` | src/output/OutputHandler.cpp:130-144 | entries leave the queue from its front, one for each count below the maximum; those within the retry limit reach the pool in order, the others are gone |
| `OutputHandler.OpeningsCount` | src/output/OutputHandler.cpp:131 | the number of entries the guard lets through is the number of calls that answered less than the maximum |
| `OutputHandler.SiftSeparates` | src/output/OutputHandler.cpp:134 | exactly the entries within the retry limit are handed on |
| `OutputHandler.SiftConserves` | src/output/OutputHandler.cpp:134-136 | the retry limit splits the entries without loss or duplication |
| `OutputHandler.Drain` | src/main.cpp:184-187 | every entry left is logged in order and the queue ends empty |
| `PipelineProofs.StepKeepsInv` | src/main.cpp:155-187 | every step of every thread of the wired program keeps its invariant |
| `PipelineTheorems.EveryQueryInExactlyOnePlace` | src/output/OutputHandler.cpp:30-162 | in every reachable state each query ever pushed is in exactly one of: shared queue, dispatcher's hand, pool queue, running task, executed, dropped with a reason, logged at shutdown |
| `PipelineTheorems.ExecutedAtMostOnce` | src/output/OutputHandler.cpp:66-85 | no query executes successfully twice, and none that executed is dropped, logged or queued |
| `PipelineTheorems.ExitAccountsForEverything` | src/main.cpp:176-187 | when `main` returns, the queries pushed are those executed, dropped and logged, each exactly once, and none is left anywhere |
| `PipelineTheorems.PoolDeletedOnlyWhenUnused` | src/output/OutputHandler.cpp:169-177 | the connection pool is deleted only by the dispatcher's last step, with no task inside it and every connection given back |
| `PipelineTheorems.ConnectionsAreReturned` | src/utils/libzdb/LibzdbHandler.cpp:75-92 | connections taken and not given back are those running tasks hold, one each, all of the live pool |
| `PipelineTheorems.PoolIsOpenedOnce` | src/output/OutputHandler.cpp:113-124 | the wired program opens at most one connection pool, and `connect` never meets a live one |
| `PipelineTheorems.PingAndOpenAreOneConnect` | src/utils/libzdb/LibzdbHandler.cpp:107-162 | the dispatcher's ping and its opening of a pool, with anything other threads do in between, have the effect of one `connect` |
| `PipelineTheorems.FirstPoolIsTheLast` | src/utils/libzdb/LibzdbHandler.cpp:121-161 | a connect leaves a pool if and only if a server was viable and building the object did not throw; in every run from there, that server and its pool stay until the dispatcher ends, even if the start threw |
| `PipelineTheorems.NeverPopsEmpty` | src/utils/lockedqueue/LockedQueue.h:27-48 | no run pops an empty queue, although test and pop are separate critical sections |
| `PipelineTheorems.GuardSeesEveryRunningTask` | src/output/OutputHandler.cpp:131 | the value the dispatcher obtains has not wrapped and is at least the number of tasks running at its second read |
| `PipelineTheorems.PopsOnlyBelowMaximum` | src/output/OutputHandler.cpp:131-132 | whatever other threads do before it goes on, the dispatcher pops if and only if that value is below the maximum, hence only if fewer tasks were running |
| `PipelineTheorems.CounterBelowMaximumSuffices` | src/output/OutputHandler.cpp:131 | tasks queued or running after the push that follows exceed the counter the guard read by at most one; so if the counter was below the maximum they are within it, whatever other threads do |
| `PipelineTheorems.WhatBecomesOfATask` | src/output/OutputHandler.cpp:51-90 | in every run a task drops its entry exactly when getConnection throws or the statement fails, each with its reason, counts it executed exactly when the statement succeeds, and puts it back exactly after a null connection or a deadlock |
| `PipelineOrder.TakenInArrivalOrder` | src/utils/lockedqueue/LockedQueue.h:20-35 | over any stretch of any run, what is taken from the shared queue followed by what is left is what was there followed by the arrivals, pushes and put-backs, in their order |
| `PipelineOrder.StartedInArrivalOrder` | src/output/OutputHandler.cpp:130-136 | in every run, tasks started, queued in the pool, held by the dispatcher, logged and still in the shared queue, one after the other, are the arrivals in their order |
| `PipelineOrder.StartedInPushOrder` | src/output/OutputHandler.cpp:130-136 | as long as no task has put its entry back, queries start in exactly the order in which the connections pushed them |
| `PipelineTheorems.ConnectionKeepsItsOrder` | src/input/inputs/GearStreamClientHandler.cpp:202-214 | the pushes of one connection are the queries decoded from its bytes, in order; acknowledgements are never ahead of pushes and at most one behind |
| `PipelineTheorems.InputIsCompleteAtShutdown` | src/input/inputs/GearServer.cpp:39-71 | when `main` has joined the accept loop, every connection has ended with all its queries pushed, and nothing can be pushed any more |
| `PipelineTheorems.DispatcherStopsAfterInput` | src/main.cpp:176-181 | the dispatcher is told to stop only when every connection has ended with all its queries pushed |
| `PipelineTheorems.ReasonsForDropping` | src/output/OutputHandler.cpp:78-80 | no entry is ever dropped for a missing pool; the retry limit drops an entry if and only if it would drop every entry; queued entries have no attempts |
| `PipelineTheorems.TasksBoundedByThreads` | src/main.cpp:160 | at most one more task than connections runs at once |
| `PipelineRuns.OneMoreThanMaximumRuns` | src/main.cpp:160 | for every maximum of connections and every configuration that can deliver, a run of the whole program in which exactly one task more runs at once |
| `PipelineRuns.MaximumExceededIff` | src/output/OutputHandler.cpp:130-136 | some run has more tasks at once than the maximum of connections if and only if there is a thread for connections, a server, a maximum above 0, and a retry limit that admits a first attempt |
| `PipelineExit.WholeLife` | src/main.cpp:155-200 | whenever the program can deliver at all, some run takes one query more than the maximum of connections, executes each once, is told to stop and returns from `main` |

## Left out

- The shapes of concurrent code: the worker loop, `wait_for_tasks`, `reset` and the destructor of the pool, the accept loop of `GearServer`, the outer loop of `OutputHandler::thread_main` and `main` are modelled on values, as step machines, because other threads act between any two of their statements; what runs undisturbed between two such points is a method on objects.
- `ParallelLoop.Split`: indices are unbounded integers; a loop whose last index is the largest value of its type never ends in the source, and a range with 2^64 indices or more is not representable there.
- `ClientHandler.RunConnection`: one class stands for both handlers, which have the same loops and differ in the protocol byte and the status case; `stop()`, `socket_` and `finished_` of the earlier one are not modelled, and the overlapping `memcpy` of the unread bytes is taken to move them.
- `ClientHandler.Handler.Scan`: where the source would repeat an iteration for ever, or read the header table at a negative index, the method stops and records which; what such a read returns is not modelled.
- `ClientHandler.Handler.ReceiveNothing`: a failed receive while bytes are carried over is not modelled; a failed receive with none carried over ends the loop as the end of the stream does.
- `OutputHandler.Task`: the outer handler for exceptions is not modelled, because `getConnection` and `returnConnection` turn every exception into others that are caught further in.
- `OutputHandler.DispatchPass`: no other thread acts during the pass; the machine of `Pipeline` has the same loop with every interleaving.
- `PipelineRuns.MaximumExceededIff`: for maxima of connections below 2^64 - 1, so that the counter does not wrap.
- `Failover.LibzdbHandler.ConnectTo`: the 10 second sleep when no server is viable, and the pool's size settings, are not modelled.
- `Escape.EscapedLiteralClosesAtItsQuote`: the character set has one byte per character and the SQL mode NO_BACKSLASH_ESCAPES is off.
- In `Pipeline` a connection decodes what it receives in one step and then pushes and acknowledges query by query; status replies, which push nothing, are not steps there.
- Configuration: fixed during a run, with the input server enabled; `load_config` and its reload are not modelled.
- Sockets, `poll`, time-outs, signals, daemonizing, the pid file, syslog, debug output and the `received` time stamp: input and output. Receives are a list of chunks, sends a list of replies.
- libzdb and MySQL themselves: a ping, the opening of a pool, a request for a connection and a statement have any outcome at all.
- The reads of the connection pool by a status request while the pool is being deleted, the C++ memory model for plain `bool` flags, and memory exhaustion.
- Liveness: that a run goes on, that a worker is ever scheduled, how long anything takes; proved is only that the workers can finish from every state and that the program has a run to its exit.
- `PipelineExit.WholeLife`: for maxima of connections below 2^64 - 1, as above.
- `submit` and its futures, `synced_stream`, `timer`, `timed_waiter`, the null checks of `ThreadpoolHandler`, the demo programs and the packaging: they hold no shared state and no protocol of their own.
