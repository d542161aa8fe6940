# Verified models of Mojo's audio packet path, handle watching and four small tools

This project models, in Dafny, the parts of the repository whose correctness rests on interleavings, on whole runs or
on loops with a delicate contract, and proves what those parts promise.

| files | what they model |
|---|---|
| `AudioSystem`, `AudioInvariant`, `AudioStructureSteps`, `AudioPacketSteps`, `AudioTheorems`, `AudioCauses`, `AudioProgress`, `AudioOperations` | the audio server: tracks, links, outputs, mixer threads, cleanup queue and shutdown |
| `AudioPipe`, `AudioPipeLoops`, `AudioPipeTheorems`, `MediaPipe` | what a packet must pass to become audio, the 32-bit frame count and the timeline |
| `HandleWatching`, `HandleInvariant`, `HandleSteps`, `HandleTheorems`, `HandleDelivery`, `HandleProgress`, `HandleOperations` | HandleWatcher, the watcher thread's manager and its backend |
| `MessagePump`, `MessagePumpTheorems`, `MessagePumpMojo` | MessagePumpMojo's table of handlers, deadline sweep and wait deadline |
| `WatcherPump` | the watcher thread's pump: how a round of MessagePumpMojo appears in handle watching |
| `SameThreadWatching` | a HandleWatcher on a thread that runs MessagePumpMojo: watches started in a deadline callback |
| `RemoteFileReader`, `RemoteFileTheorems` | the line protocol of the remote file reader |
| `TransitiveHash` | the worklist of the transitive hash |
| `StableSort`, `LineBlocks`, `SortedRuns`, `FileText`, `SortedFiles`, `SortHeaders`, `SortSources` | the two block-wise sorters, on lines and on files |
| `Wrappers` | an optional value |

`dafny verify dfyconfig.toml` checks all of it.

## The two state machines

**Audio.** `AudioSystem` is a step relation: one main loop, any number of outputs, each with workers that
take turns under its processing lock, and any number of tracks, links and packets. A packet is shared by reference; its last copy can
go away on any thread, and reaching the cleanup queue is a later, separate step, so another thread may run in between.
A step is one atomic section of the code. Three of them join what the code does under one lock or what no other thread
can observe in two parts: taking a link's flush lock and swapping its queue out; taking the flush lock and reading the
front; setting a packet's result and dropping the copy. `FlushPendingQueue`'s release of the packets, a pop and the
arrival in the queue are separate steps. A mixer is any sequence of paired lock and unlock calls on the links of its
output inside `Process`, which may also drop links whose track is gone and call `ShutdownSelf`.

**Handle watching.** `HandleWatching` is a step relation for any number of client threads, each with any number of
HandleWatcher objects, and the watcher thread. Steps are the sections under the request lock, the draw of an id, the
posting of a task, the swap of the request vector, one request of the batch, and one pump callback. Posted
notifications are bound to weak pointers: they do nothing once their HandleWatcher has let go.

`AudioOperations` and `HandleOperations` write the code's own loops over these steps, as methods of a class whose
state is always the last state of a run, and show that they end, from any reachable state in which they can begin.
Where a method has to wait for another thread, it lets that thread take the steps it is waiting for. That such a step
always exists is what `AudioProgress` and `HandleProgress` state for every interleaving.

| steps | code |
|---|---|
| `Accept`, `Push`, `DropOwnCopy`, `EnqueueOwn` | `services/media/audio/audio_track_impl.cc` 309-315, `services/media/audio/audio_track_to_output_link.cc` 61-65 |
| `BeginFlush`, `SwapOut`, `Release`, `EndSwapOut`, `EndFlush` | `services/media/audio/audio_track_impl.cc` 317-324, `services/media/audio/audio_track_to_output_link.cc` 67-98 and 156-167 |
| `LockFront`, `UnlockKeep`, `UnlockPop`, `Enqueue` | `services/media/audio/audio_track_to_output_link.cc` 100-154, `services/media/audio/audio_pipe.cc` 31-34 |
| `Schedule`, `BeginCleanup`, `CallBack`, `EndCleanup` | `services/media/audio/audio_server_impl.cc` 65-110 |
| `CreateTrack`, `SelectOutput`, `AddTrackLink`, `AddOutput`, `ShutdownTrack`, `EndShutdownTrack` | `services/media/audio/audio_output_manager.cc` 126-146, `services/media/audio/audio_output.cc` 36-57, `services/media/audio/audio_track_impl.cc` 70-93 and 286-292 |
| `Enter`, `Check`, `Leave`, `ShutdownSelf`, `PostFinish`, `DropLink` | `services/media/audio/audio_output.cc` 114-138 and 166-179 |
| `ShutdownOutput`, `BeginOutput`, `PassBarrier`, `UnlinkAll`, `EndOutput`, `Stop` | `services/media/audio/audio_output.cc` 181-215, `services/media/audio/audio_output_manager.cc` 85-124, `services/media/audio/audio_server_impl.cc` 44-59 |
| `Start`, `Reset`, `RunTask` | `mojo/message_pump/handle_watcher.cc` 330-348, 424-432 and 451-471 |
| `Draw`, `AddStart`, `Post`, `EraseRequest`, `GiveUpSearch`, `AddStop`, `Awake` | `mojo/message_pump/handle_watcher.cc` 227-283 |
| `Wake`, `Swap`, `ProcessStart`, `ProcessStop`, `Rest` | `mojo/message_pump/handle_watcher.cc` 96-138 and 285-301 |
| `Fire`, `FireInvalid` | `mojo/message_pump/handle_watcher.cc` 117-146, `mojo/message_pump/message_pump_mojo.cc` 191-205 and 248-287 |

## Where the code does not do what one might expect

- A handler that is registered again for the same handle inside its own deadline callback is lost
  (`ReRegistrationIsLost` says, for any sweep, exactly which handlers added in a callback survive it;
  `ReRegistrationExample` is one that does not). So a HandleWatcher on such a thread that its user starts again on the
  same handle in its deadline callback is never called, though it still has its state: `StartInDeadlineCallback` has the
  exact condition, `LostForGood` says that this is final.
- Frames are counted in 32 bits, so a region of 2^32 frames counts as none (`HugeRegionCountsAsNothing`); an accepted
  packet is counted rightly if and only if no region is that large (`AcceptedCountIsExact`).
- A region's `frac_frame_len` is the running total up to and including the region, and a mixer takes it for the
  region's own length (`services/media/audio/platform/generic/standard_output_base.cc` 358-366): of two regions that
  fill the buffer the second is handed on with an end beyond it (`SecondRegionPassesTheBuffer`). A region is handed on
  with its own length if and only if no earlier one has a frame, and stays inside the buffer if and only if its offset
  plus the bytes of all regions up to it does (`HandedRegionIsInsideIff`).
- `sort-headers.py` writes its lines one after the other, as they were read. A last include without a newline that
  belongs before another of its block moves up and is glued to its successor: two includes become one line
  (`LastIncludeIsGlued`), and sorting the result again may change it (`SortingAgainChanges`). The lines of the file are
  all there if and only if the file is empty, ends in a newline or in a line that is no include, or no include of its
  last block has a greater key than its last line (`FileReadsBackIff`, `FileSortedPermutes`); sorting twice is sorting
  once if and only if the first time leaves no include out of order (`FileSortedIdempotentIff`).
- `SortSources` drops a list at the very end of the input (`UnclosedListIsLost`); its output is a permutation if and
  only if the input does not end in a comment or a source (`PermutesIffClosed`).
- A request of fewer than two bytes ends the remote file reader (`LinesAreAnswered`: if and only if there is one;
  `EmptyLineEndsTheServer`: an empty line does).
- The remote file reader answers `O`, the letter, to successful seeks and reads, where its comment
  (`mojo/tools/remote_file_reader.cc` 31 and 36) shows the digit. The model follows the code.
- `AudioOutput::BeginShutdown` returns true when shutdown had begun before; the comment at
  `services/media/audio/audio_output.h` 150-151 says the reverse. The model follows the code.
- Two files with the same hash whose dependencies have different hashes can make the transitive hash miss a library, depending on
  the order in which dependencies are listed (`CollisionSeenInTime`, `CollisionLosesHashes`, `CollisionReachesAll`).

## Model

| member | source | states |
|---|---|---|
| AudioTheorems.PacketsReturnInOrder | services/media/audio/audio_track_to_output_link.cc:61-167 | in every run, at every moment, for every track: the callbacks that have run are those of a beginning of the packets sent, in the order sent, whatever the number of links and the interleaving of pushes, flushes, mixers, destructors and cleanups |
| AudioTheorems.CallbacksRunAtMostOnce | services/media/common/media_pipe_base.cc:171-173 | in every run no packet's callback runs twice |
| AudioTheorems.FlushedMeansDiscarded | services/media/common/media_pipe_base.cc:175-179 | a callback reports FLUSHED if and only if some link was given the packet and no mixer released it there; otherwise CONSUMED |
| AudioTheorems.NoPacketIsStranded | services/media/audio/audio_server_impl.cc:99-110 | before shutdown a non-empty cleanup queue always has a cleanup task posted |
| AudioTheorems.PacketsAreConserved | services/media/audio/audio_pipe.cc:31-34 | a packet has reached the cleanup queue, once, exactly when no copy of it is left anywhere and no thread is about to enqueue it |
| AudioTheorems.LinkQueues | services/media/audio/audio_track_to_output_link.cc:61-154 | every link obeys pushed = released ++ being released ++ pending, in increasing order; a front that was given out is still the front |
| AudioTheorems.WasFlushedIsExact | services/media/audio/audio_track_to_output_link.cc:100-125 | was_flushed is true exactly on the first lock or after a flush since the previous lock; when false, the front is the packet held before (kept) or the one pushed directly after it (released), or none if there is none |
| AudioTheorems.RunStaysPastBarrier | services/media/audio/audio_output.cc:181-215 | an output whose shutdown has passed the processing lock stays past it for the rest of the run |
| AudioTheorems.BarrierExcludesMixers | services/media/audio/audio_output.cc:125-138 | after the acquire and release of the processing lock no worker is in Process, now or ever after, and none can touch a link of that output |
| AudioTheorems.OutputLifecycle | services/media/audio/audio_output.cc:114-215 | a shutdown that has begun and is not finished is going to be: its finishing task is about to be posted by the worker, is waiting in the message loop, or the main loop is at it; Cleanup runs at most once and the finishing task is posted at most once; a link in a track's outputs_ is in its output's links_; after shutdown no track has a link to the output and every such link is empty |
| AudioTheorems.ListedTracksAreBound | services/media/audio/audio_track_impl.cc:70-93 | between messages the server's tracks_ is exactly the set of bound tracks, and each of them can be shut down by the Shutdown loop |
| AudioTheorems.ShutdownReturnsEveryPacket | services/media/audio/audio_server_impl.cc:44-59 | when Shutdown has returned, every packet ever accepted has had its callback run, for each track in the order sent |
| AudioTheorems.RunKeepsInv | services/media/audio/audio_server_impl.cc:44-110 | every state of every run satisfies the invariant on links, outputs, tracks, server and packets |
| AudioTheorems.EarlierIsOut | services/media/audio/audio_track_to_output_link.h:101-105 | a packet is not in the cleanup queue or past it unless every earlier packet of its track is |
| AudioTheorems.EarlierIsCalled | services/media/audio/audio_server_impl.cc:65-97 | a packet's callback has not run unless that of every earlier packet of its track has |
| AudioCauses.OneCleanupTask | services/media/audio/audio_server_impl.cc:99-110 | at most one cleanup task waits in the message loop, and before shutdown cleanup_scheduled_ says whether one does |
| AudioCauses.CleanupTaskHasACause | services/media/audio/audio_server_impl.cc:65-110 | in every step: a cleanup task is posted only before shutdown, by a packet that arrives while none is waiting, and taken only by a cleanup that has the whole queue before it |
| AudioCauses.DiscardHasACause | services/media/audio/audio_track_to_output_link.cc:67-98 | in every step of every run: a link discards a packet only while its own track is being flushed, after its track was shut down, or while its output is; nobody else's flush or shutdown costs a packet |
| AudioCauses.LinksLast | services/media/audio/audio_output.cc:181-215 | in every step: a link in a track's outputs_ stays at both ends, for the same track and output, unless its track or its output is shut down |
| AudioCauses.TracksLast | services/media/audio/audio_track_impl.cc:70-93 | in every step: a new track is bound and listed, and a track stops being bound exactly when it is shut down itself |
| AudioCauses.NewTrackIsUsable | services/media/audio/audio_track_impl.cc:286-292 | a new track is one more, and takes packets, flushes, links and a shutdown at once |
| AudioCauses.LiveOutputIsMixed | services/media/audio/audio_output.cc:125-138 | from any reachable state where nobody has an output's processing lock, a worker that takes it can lock the front of any link of the output if and only if the output is not shutting down |
| AudioCauses.ShutdownHasACause | services/media/audio/audio_output.cc:114-123 | an output begins to shut down only from its own worker in Process or in the shutdown of the server |
| AudioCauses.ShutdownSelfIsFinished | services/media/audio/audio_output.cc:114-123 | in every reachable state ShutdownSelf begins the shutdown; if nobody had, the one finishing task can be posted, and it begins the rest once the main loop is idle |
| AudioCauses.FinishTaskIsSpent | services/media/audio/audio_output.cc:166-179 | while the server runs, an output that is being shut down or is shut down has no finishing task left |
| AudioStructureSteps.StepKeepsStructure | services/media/audio/audio_output.cc:36-215 | every step keeps the structure: queues and locks of links, references from tracks and outputs, stages of shutdowns, cleanup scheduling |
| AudioPacketSteps.StepKeepsPackets | services/media/audio/audio_track_to_output_link.cc:61-167 | every step keeps the packet invariants: a link not done with a packet still holds all later ones of its track, where packets are, their order of arrival and their results |
| AudioProgress.MainLoopIsNeverStuck | services/media/audio/audio_output.cc:181-215 | in every reachable state where the main loop is in an operation, waiting in AddTrackLink included, or in the server's shutdown, a step of its own is possible, or one of the worker that has the lock it waits for, towards giving it back |
| AudioProgress.WorkersAreNeverStuck | services/media/audio/audio_output.cc:125-138 | in every reachable state a worker that has a processing lock can take a step towards giving its locks back; it waits for nobody |
| AudioOperations.AudioServer.ReleaseQueue | services/media/audio/audio_track_to_output_link.cc:156-167 | the loop ends with the link empty, its packets released front to back, and nothing else changed but results and the cleanup queue |
| AudioOperations.AudioServer.AwaitLocks | services/media/audio/audio_track_to_output_link.cc:83-95 | a locked link becomes free by one step of the mixer that has it, which changes neither its queue nor any other link |
| AudioOperations.AudioServer.LockPendingQueueFront | services/media/audio/audio_track_to_output_link.cc:100-125 | returns the front and the exact was_flushed, and clears flushed_ |
| AudioOperations.AudioServer.UnlockPendingQueueFront | services/media/audio/audio_track_to_output_link.cc:127-154 | a released front is the packet that was given out; the rest of the queue and all other links are untouched and the locks are free |
| AudioOperations.AudioServer.OnPacketReceived | services/media/audio/audio_track_impl.cc:309-315 | the packet is appended to exactly the links in the track's outputs_, once a pop that is under way has ended; if there is no link it goes straight to the cleanup queue |
| AudioOperations.AudioServer.SelectOutputsForTrack | services/media/audio/audio_output_manager.cc:126-146 | after waiting for each output's worker the track has a new link, at both ends, to exactly the outputs that are managed and not shutting down; older links are where they were |
| AudioOperations.AudioServer.OnFlushRequested | services/media/audio/audio_track_impl.cc:317-324 | every link of the track is emptied and marked flushed, once a mixer that has it locked has unlocked it; others are unchanged, and every packet ever sent to the track is in the cleanup queue or past it |
| AudioOperations.AudioServer.DoPacketCleanup | services/media/audio/audio_server_impl.cc:65-97 | runs exactly the callbacks of the queued packets, in order, and leaves the queue empty |
| AudioOperations.AudioServer.ShutdownTrack | services/media/audio/audio_track_impl.cc:70-93 | takes exactly this track out of the server's tracks_, unbinds it and clears its outputs_; links lose nothing but the track's reference |
| AudioOperations.AudioServer.ClearLinks | services/media/audio/audio_output.cc:198-207 | every link of the output has finished its destructor and holds nothing |
| AudioOperations.AudioServer.TidyLinks | services/media/audio/audio_output.cc:134-136 | a worker about to leave Process has unlocked every link of its output and finished the destructors it began |
| AudioOperations.AudioServer.AwaitWorker | services/media/audio/audio_output.cc:191-196 | a worker that has the processing lock gives it back; other outputs, all tracks and the places of all links are unchanged |
| AudioOperations.AudioServer.ShutdownOutput | services/media/audio/audio_output.cc:181-215 | after waiting for a worker in Process the output ends shut down and unmanaged, all other outputs and all tracks unchanged |
| AudioOperations.AudioServer.ShutdownTracks | services/media/audio/audio_server_impl.cc:47-55 | the loop ends, with the size of tracks_ falling in every round, and no track is left |
| AudioOperations.AudioServer.ShutdownOutputs | services/media/audio/audio_output_manager.cc:85-112 | every managed output is shut down |
| AudioOperations.AudioServer.Shutdown | services/media/audio/audio_server_impl.cc:44-59 | Shutdown ends, whatever workers are doing when it begins, and by then every accepted packet has had its callback run, per track in the order sent |
| AudioPipe.Wrap64 | services/media/audio/audio_pipe.cc:123-125 | a 64-bit sum is right modulo 2^64, and right if and only if it is in range |
| AudioPipeLoops.CheckRegions | services/media/common/media_pipe_base.cc:97-132 | accepts if and only if every region is present and offset + length lies within the buffer, although the code never forms that sum |
| AudioPipeLoops.CountFrames | services/media/audio/audio_pipe.cc:58-100 | accepts if and only if all regions are whole frames and no running total, as 32 bits show it, exceeds the maximum; returns the running totals region by region |
| MediaPipe.Pipe.SendPacket | services/media/common/media_pipe_base.cc:86-137 | the new state; for a packet of which no region wraps: delivered, with or without a time stamp, if and only if a buffer is set, every region is present and inside it, all are whole frames and at most the maximum of them, and a time stamp, if any, can be transformed; otherwise the pipe is closed and nothing else changes |
| MediaPipe.Pipe.OnPacketReceived | services/media/audio/audio_pipe.cc:46-141 | the audio packet handed on, the timeline and the prime callback; for a packet of which no region wraps, delivered if and only if it is whole frames within the maximum and untimed or with a time stamp that can be transformed, and otherwise closed |
| MediaPipe.Pipe.SetBuffer | services/media/common/media_pipe_base.cc:42-84 | sets the buffer only once, only for a size within limits that could be mapped; otherwise closes |
| MediaPipe.Pipe.Flush | services/media/audio/audio_pipe.cc:152-156 | with a buffer the flush is handed on and a following untimed packet starts at 0; without one the pipe is closed |
| AudioPipeTheorems.AcceptedCountIsExact | services/media/audio/audio_pipe.cc:77-88 | an accepted packet is counted rightly if and only if every region has fewer than 2^32 - maximum frames |
| AudioPipeTheorems.AcceptedIffItFits | services/media/audio/audio_pipe.cc:68-88 | without such a region, exactly the packets of whole frames within the maximum are accepted |
| AudioPipeTheorems.DeliveredIffInOrder | services/media/audio/audio_pipe.cc:46-133 | from any state, for a packet of which no region wraps: the log grows by it if and only if buffer, regions, frames and time stamp are in order; then it starts at its transformed time stamp, at the end of the one before or at 0, and ends after its true number of frames; otherwise the pipe is closed and nothing else changes |
| AudioPipeTheorems.HugeRegionCountsAsNothing | services/media/audio/audio_pipe.cc:79-92 | a region of 2^32 frames is accepted, and the packet starts and ends at the same time |
| AudioPipeTheorems.TimelineIsContinuous | services/media/audio/audio_pipe.cc:102-126 | over every run of sends, flushes, resets and reconfigurations, an untimed packet starts where the one delivered before it ended, at 0 if none was since the last flush; a timed one at its transformed time stamp |
| AudioPipeTheorems.DeliveredLengthsAddUp | services/media/audio/audio_pipe.cc:79-126 | over every run: region entries are prefix sums of true frame counts times 4096, the last is the packet's length and fits 32 bits, and end minus start is the length if and only if the end is within 64 bits |
| AudioPipeTheorems.UntimedRunsAddUp | services/media/audio/audio_pipe.cc:116-126 | packets delivered back to back without time stamps fill the timeline without gap or overlap |
| AudioPipeTheorems.DeliveredRegionsAreInside | services/media/common/media_pipe_base.cc:112-122 | over every run, every region of a delivered packet, as it was sent, lies inside the buffer and is whole frames, and is handed on at its own offset |
| AudioPipeTheorems.HandedRegionIsInsideIff | services/media/audio/audio_pipe.cc:90-92 | over every run, for a packet of which no region wraps: a region as a mixer is given it stays inside the buffer if and only if its offset plus the bytes of all regions up to it does; its length is its own if and only if no earlier region has a frame |
| AudioPipeTheorems.SecondRegionPassesTheBuffer | services/media/audio/audio_pipe.cc:90-92 | two regions of four bytes in a buffer of eight: the second is handed on with an end at twelve |
| AudioPipeTheorems.ClosedPipeIsSilent | services/media/common/media_pipe_base.cc:86-94 | a rejected packet changes neither the timeline nor what was delivered and closes the pipe; after it nothing is delivered and no flush moves the timeline until a new buffer is set |
| AudioPipeTheorems.ReconnectContinuesTimeline | services/media/common/media_pipe_base.cc:35-40 | after a reset, a new configuration and a new buffer the timeline goes on where it was |
| AudioPipeTheorems.ReconnectedIsOpen | services/media/common/media_pipe_base.cc:20-84 | from any state a lost connection, a new configuration and a buffer of an allowed size open the pipe again and change nothing else |
| AudioPipeTheorems.PrimesRunInOrder | services/media/audio/audio_pipe.cc:135-150 | over every run prime callbacks run once each in the order requested, and only the latest can be waiting |
| AudioPipeTheorems.AcceptedPacketCompletesPrime | services/media/audio/audio_pipe.cc:135-140 | after an accepted packet every prime callback ever requested has run |
| HandleTheorems.EveryWatchIsInOnePlace | mojo/message_pump/handle_watcher.cc:96-301 | in every run the id of every Start is in exactly one place: on its way, request vector, batch, backend map, notified or dropped |
| HandleTheorems.StartsAddUp | mojo/message_pump/handle_watcher.cc:227-301 | the number of ids drawn is the sum of the sizes of those places |
| HandleTheorems.NobodyIsNotifiedTwice | mojo/message_pump/handle_watcher.cc:117-126 | in every run no id is notified twice, also when a watch on the same handle displaces another; no id is in the map under two handles |
| HandleTheorems.StopWatchingRemoves | mojo/message_pump/handle_watcher.cc:244-268 | when StopWatching(id) returns, either way, id is in neither vector, batch nor map, its HandleWatcher has let go of it, and its callback has run just now if the thread's message loop is going away and is barred otherwise |
| HandleTheorems.StoppedCallbackNeverRuns | mojo/message_pump/handle_watcher.cc:424-471 | once Stop, restart or destruction has returned, that Start's callback never runs, even if its notification had been posted; and no callback runs twice (that every other one does run is EveryWatchIsCalledOrStopped) |
| HandleTheorems.NoWatchLeaks | mojo/message_pump/handle_watcher.cc:424-432 | a watch that no HandleWatcher has and that is not being started has been notified or dropped: nothing stays registered |
| HandleTheorems.NoLostWakeUp | mojo/message_pump/handle_watcher.cc:244-301 | a non-empty vector has a task pending, just started, or a thread committed to posting one; a thread waiting in StopWatching has its request in vector or batch |
| HandleTheorems.BackendAgreesWithPump | mojo/message_pump/handle_watcher.cc:96-146 | the backend's map and the pump's table have the same handles, each key being its own handle, and AddHandler never meets a registered handle |
| HandleTheorems.FireRemovesAndNotifies | mojo/message_pump/message_pump_mojo.cc:248-287 | ready, expired and invalid handles all end in the same state although the pump and the backend erase in different orders |
| HandleTheorems.RunKeepsInv | mojo/message_pump/handle_watcher.cc:227-301 | every state of every run satisfies the invariant |
| HandleDelivery.EveryWatchIsCalledOrStopped | mojo/message_pump/handle_watcher.cc:330-348 | in every run: a watch is neither being started nor held by any HandleWatcher if and only if its callback has run or it was stopped, and never both: none is let go in silence |
| HandleDelivery.NotificationIsOnItsWay | mojo/message_pump/handle_watcher.cc:117-126 | in every run: a notification that was posted, for a watch that a HandleWatcher of thread c still has, waits in the queue of thread c |
| HandleDelivery.TaskCallsBack | mojo/message_pump/handle_watcher.cc:330-348 | in every reachable state the first task of a thread calls the user back, once, if and only if one of its HandleWatchers still has that watch, which it then has no more |
| HandleDelivery.RegisteredWatchIsNotified | mojo/message_pump/handle_watcher.cc:117-146 | in every reachable state the pump can fire any handle in the map; that watch alone leaves map and table, its own id is notified, and the notification goes to the thread that has it |
| HandleDelivery.TasksArePostedAndTaken | mojo/message_pump/handle_watcher.cc:270-301 | in every step: there is a processing task more exactly when a thread has posted it, one less exactly when the watcher thread starts on it; and a thread is to post one exactly when its request goes into an empty vector |
| HandleDelivery.StartAsksForItsHandle | mojo/message_pump/handle_watcher.cc:227-242 | Start on a free HandleWatcher appends a request for the handle asked for, with a fresh id and the thread's own number, and the HandleWatcher has that id |
| HandleDelivery.StopGoesThrough | mojo/message_pump/handle_watcher.cc:244-268 | in every step: a stop that is under way goes on for the same HandleWatcher, watch and purpose, or ends with the watch let go, the callback run or barred as its purpose says, and the new watch begun if it was a restart |
| HandleDelivery.StopBegins | mojo/message_pump/handle_watcher.cc:451-471 | Stop, the end of the message loop and Start on a HandleWatcher that has a watch begin such a stop, of the watch it has |
| HandleDelivery.DrawnAsksForItsHandle | mojo/message_pump/handle_watcher.cc:227-242 | a thread in StartWatching, after a restart too, appends a request for the handle asked for, with a fresh id, and its HandleWatcher has that id |
| HandleProgress.ThreadsAreNeverStuck | mojo/message_pump/handle_watcher.cc:244-301 | in every reachable state a thread in Start or Stop has a step to take; or it waits for its event, and then the watcher thread has one, or a thread that is about to post it a task |
| HandleOperations.GetMojoHandleByWatcherID | mojo/message_pump/handle_watcher.cc:128-138 | finds a handle whose watch has the id, if and only if there is one |
| HandleOperations.FoundIsTheOne | mojo/message_pump/handle_watcher.cc:107-115 | there is at most one such handle, so the order of the walk does not matter |
| HandleOperations.Watchers.WorkThroughBatch | mojo/message_pump/handle_watcher.cc:293-300 | the loop over the batch ends, leaving the vector and what other threads are doing alone |
| HandleOperations.Watchers.ProcessRequests | mojo/message_pump/handle_watcher.cc:285-301 | the swapped vector is worked through to its end, the vector is empty, and every thread waiting in StopWatching has been signalled |
| HandleOperations.Watchers.FindStart | mojo/message_pump/handle_watcher.cc:247-256 | finds the first start request of the id, if there is one |
| HandleOperations.Watchers.RequestStop | mojo/message_pump/handle_watcher.cc:258-283 | the stop request is appended, a processing task is posted exactly if the vector was empty, and the thread waits |
| HandleOperations.Watchers.Rouse | mojo/message_pump/handle_watcher.cc:270-283 | a resting watcher thread with a request in the vector has a task, or gets one from a thread that is about to post it, and starts on it |
| HandleOperations.Watchers.Wait | mojo/message_pump/handle_watcher.cc:266-267 | whatever the watcher thread is doing, it comes to process the request, and the waiting thread can go on |
| HandleOperations.Watchers.Stop | mojo/message_pump/handle_watcher.cc:469-471 | from any state Stop returns, and then the watch is in neither vector, batch nor map and its callback is barred |
| MessagePumpTheorems.RunKeepsIds | mojo/message_pump/message_pump_mojo.cc:87-105 | whatever a callback adds and removes, ids stay distinct and below the next one, and an id that is gone never comes back |
| MessagePumpTheorems.SweepKeepsIds | mojo/message_pump/message_pump_mojo.cc:248-262 | the same over a whole sweep |
| MessagePumpTheorems.NotifiedIffRegisteredAtItsTurn | mojo/message_pump/message_pump_mojo.cc:248-262 | whatever callbacks do, an entry of the copy is notified if and only if its deadline is not null and before now and at its turn it is still registered under the same id |
| MessagePumpTheorems.NotNotifiedAfterRemoval | mojo/message_pump/message_pump_mojo.cc:251-255 | an entry removed or replaced at any time before its turn is not notified |
| MessagePumpTheorems.NotifiedInOrder | mojo/message_pump/message_pump_mojo.cc:236-262 | those notified are entries of the copy with a deadline that is not null and before now, in its order, none twice |
| MessagePumpTheorems.OnlyNewHandlersAreExpired | mojo/message_pump/message_pump_mojo.cc:236-262 | a handler registered after a sweep whose deadline is not null and before now was added during it |
| MessagePumpTheorems.NothingExpiredIsLeft | mojo/message_pump/message_pump_mojo.cc:236-262 | if callbacks add nothing, every handler left has no deadline or one that is not before now |
| MessagePumpTheorems.StrangerSurvives | mojo/message_pump/message_pump_mojo.cc:248-262 | a handler that is not in the copy, and whose handle no callback removes, is unchanged by a sweep |
| MessagePumpTheorems.ReRegistrationIsLost | mojo/message_pump/message_pump_mojo.cc:256-260 | for any copy and any callbacks: a handler added in the callback of entry k, and not removed by a later callback, is registered after the whole sweep if and only if it is not for the entry's own handle |
| MessagePumpTheorems.ReRegistrationExample | mojo/message_pump/message_pump_mojo.cc:256-260 | a handle registered again in its own deadline callback is not registered afterwards |
| MessagePumpTheorems.BackendSweepOfTable | mojo/message_pump/message_pump_mojo.cc:248-262 | when every callback removes its own handle, as the watcher backend does, the sweep leaves exactly the handlers without a deadline or with one that is not before now |
| MessagePumpTheorems.AddedAsAsked | mojo/message_pump/message_pump_mojo.cc:87-105 | whatever a callback does, a handler in the table is an old one unchanged or has the owner, signals and deadline of one of its AddHandler calls; and the last call for a handle is what holds |
| MessagePumpTheorems.QuietRound | mojo/message_pump/message_pump_mojo.cc:180-287 | a round whose callbacks leave the table alone removes exactly the invalid handle, if one was reported, and the handlers whose deadline is not null and before now |
| SameThreadWatching.StartInDeadlineCallback | mojo/message_pump/handle_watcher.cc:362-402 | for any sweep: a watch that the callback of an expired watch starts, and that nobody stops before the sweep is over, is registered afterwards if and only if it is not on the handle that had expired |
| SameThreadWatching.LostForGood | mojo/message_pump/message_pump_mojo.cc:248-262 | a registration that is gone is in no later table and notified in no later sweep |
| WatcherPump.RoundIsAllFires | mojo/message_pump/message_pump_mojo.cc:180-268 | a round of the pump with the watcher backend's callbacks is the firing of the reported handle and then of each expired one, each possible at its turn; the pump's table and the backend's map have the same handles afterwards, and the notifications are those of the watches that fired |
| WatcherPump.StartRegisters | mojo/message_pump/handle_watcher.cc:96-105 | a start request displaces a watch on its handle, so that AddHandler finds the handle free, and table and map agree afterwards |
| WatcherPump.StopRemoves | mojo/message_pump/handle_watcher.cc:107-115 | a stop request removes the same handle from table and map |
| MessagePumpMojo.Pump.AddHandler | mojo/message_pump/message_pump_mojo.cc:87-101 | registers the handle with exactly this owner, signals and deadline under a fresh id, and keeps ids distinct |
| MessagePumpMojo.Pump.RemoveHandler | mojo/message_pump/message_pump_mojo.cc:103-105 | the handle is not registered, all else is unchanged |
| MessagePumpMojo.Pump.Clone | mojo/message_pump/message_pump_mojo.cc:243-246 | copies every handler once, in the order of handles |
| MessagePumpMojo.Pump.GetDeadlineForWait | mojo/message_pump/message_pump_mojo.cc:316-327 | never beyond the delayed work or any handler's deadline, 0 if one has passed, and no sooner than the nearest of them; indefinite if there is none |
| MessagePumpMojo.Pump.SweepExpired | mojo/message_pump/message_pump_mojo.cc:236-262 | the loop does what the sweep function says, callback by callback, on a copy made at its start; everyone notified has a deadline that is not null and before now, and if callbacks add nothing nobody with such a deadline is left |
| MessagePumpMojo.Pump.DoInternalWork | mojo/message_pump/message_pump_mojo.cc:180-268 | whose callback a ready or invalid handle runs, what the round does to the table and whom its sweep notifies: only entries with a deadline that is not null and before now; afterwards only handlers added in the round can be expired, the handler of an invalid handle is gone, and with callbacks that do nothing exactly the invalid and the expired ones are |
| RemoteFileReader.Connection.Read | mojo/tools/remote_file_reader.cc:86-96 | the new state after a chunk of any size, or closed when nothing could be read; an open request that arrives alone is answered with 'O' and the file is open at 0 if the path exists, with 'E' and no file is open if not |
| RemoteFileReader.Connection.Write | mojo/tools/remote_file_reader.cc:73-81 | bytes only move from the buffer to the client: sent ++ buffer is unchanged, by exactly as many as were written; or the connection is closed |
| RemoteFileReader.Connection.Respond | mojo/tools/remote_file_reader.cc:106-127 | the loop takes line by line from the buffer until none is left or one is too short, and handles each; what handling one does is stated on bytes by OpenOnTheWire, RefusedOnTheWire, SeekOnTheWire, BadReadOnTheWire and ReadOnTheWire |
| RemoteFileReader.OpenOnTheWire | mojo/tools/remote_file_reader.cc:130-142 | on bytes, for any path without newline and NUL: the request [79, 32] ++ path ++ [10] appends exactly 79 and leaves that file open at 0 if the path exists, and exactly 69 and leaves no file open if not |
| RemoteFileTheorems.RefusedOnTheWire | mojo/tools/remote_file_reader.cc:106-127 | on bytes: without a file a seek or read request appends exactly 69; so does any other letter; nothing else changes |
| RemoteFileTheorems.SeekOnTheWire | mojo/tools/remote_file_reader.cc:145-164 | on bytes: with a file, a seek request appends exactly 79 and moves to its destination, or exactly 69 and changes nothing if it cannot be scanned or leads nowhere |
| RemoteFileTheorems.BadReadOnTheWire | mojo/tools/remote_file_reader.cc:166-188 | on bytes: a read of a size that cannot be scanned or is not positive appends exactly 69 and keeps the file; a read of a directory appends exactly 69 and closes it |
| RemoteFileTheorems.ReadOnTheWire | mojo/tools/remote_file_reader.cc:166-194 | on bytes: any other read appends exactly 79, the size in network order and the bytes at the position, and moves past them |
| RemoteFileTheorems.SplitJoins | mojo/tools/remote_file_reader.cc:106-127 | the lines and the rest, put back together with newlines, are the input |
| RemoteFileTheorems.SplitLeavesNoNewline | mojo/tools/remote_file_reader.cc:106-127 | neither a line nor the rest contains a newline |
| RemoteFileTheorems.SplitAppend | mojo/tools/remote_file_reader.cc:86-96 | later input only continues the rest: splitting may be done chunk by chunk |
| RemoteFileTheorems.AnsweredIsReplied | mojo/tools/remote_file_reader.cc:106-127 | taking lines off the buffer one by one is answering the list of lines up to the first too short |
| RemoteFileTheorems.LinesAreAnswered | mojo/tools/remote_file_reader.cc:73-127 | over every run of chunks and partial writes: bytes sent ++ write buffer are the responses to exactly the complete lines received, up to the first too short; the server goes down if and only if there is such a line; the read buffer is the rest; a closed connection has no file. The response to one line is stated on bytes by the lemmas above |
| RemoteFileTheorems.ChunkingDoesNotMatter | mojo/tools/remote_file_reader.cc:73-96 | the same bytes get the same responses, however they are cut up in either direction |
| RemoteFileTheorems.EmptyLineEndsTheServer | mojo/tools/remote_file_reader.cc:109-111 | a run in which an empty line brings the server down |
| RemoteFileTheorems.NetworkOrderRoundTrip | mojo/tools/remote_file_reader.cc:190-192 | the four bytes, most significant first, give the size back |
| RemoteFileTheorems.StreamDecodes | mojo/tools/remote_file_reader.cc:106-194 | given the requests, the stream decodes to the outcomes and any beginning of it to a beginning of them |
| RemoteFileTheorems.ClientDecodesOutcomes | mojo/tools/remote_file_reader.cc:73-194 | at any time in any run the client decodes a beginning of the outcomes from what was sent, and all of them from all of it |
| RemoteFileTheorems.ReadDelivers | mojo/tools/remote_file_reader.cc:166-194 | a read delivers the bytes at the position, as many as asked for or as there are, and moves past them; the client decodes exactly those bytes |
| RemoteFileTheorems.SeekThenRead | mojo/tools/remote_file_reader.cc:145-194 | a seek from the start, the position or the end decides where the next read begins; one that leads nowhere fails and leaves the position |
| RemoteFileTheorems.ReadsAreContiguous | mojo/tools/remote_file_reader.cc:166-194 | reads of any sizes deliver the file from its position on without gap or overlap |
| RemoteFileTheorems.ReadToTheEnd | mojo/tools/remote_file_reader.cc:130-194 | a client that opens a file and reads until it gets nothing has all of it |
| TransitiveHash.CollectHashes | mojo/tools/mopy/transitive_hash.py:39-54 | the loop ends, by the hashes not yet seen and then the length of the list, and is the recursion Collect |
| TransitiveHash.CollectedIsReachable | mojo/tools/mopy/transitive_hash.py:39-54 | for any hashes: the file's own hash is collected, every other belongs to a reachable file, a failure comes from a reachable file |
| TransitiveHash.CollectedIsExact | mojo/tools/mopy/transitive_hash.py:39-54 | if files of equal hash have dependencies of equal hashes: fails if and only if a reachable file fails, otherwise collects exactly the hashes of all reachable files |
| TransitiveHash.OrderDoesNotMatter | mojo/tools/mopy/transitive_hash.py:40-42 | then the order and repetition of dependencies make no difference |
| TransitiveHash.CollisionSeenInTime | mojo/tools/mopy/transitive_hash.py:48-53 | a world with colliding hashes where one order of dependencies collects every hash |
| TransitiveHash.CollisionLosesHashes | mojo/tools/mopy/transitive_hash.py:48-53 | the same world, where the other order does not |
| TransitiveHash.CollisionReachesAll | mojo/tools/mopy/transitive_hash.py:48-53 | the file whose hash is missing is reachable |
| StableSort.SortSorts | tools/sort-headers.py:95-96 | sorted gives a list in order |
| StableSort.SortPermutes | tools/sort-headers.py:95-96 | sorted gives a permutation |
| StableSort.SortIsStable | tools/sort-headers.py:95-96 | elements that compare equal keep their order |
| StableSort.StableSortIsUnique | tools/sort-headers.py:95-96 | whatever sorts stably gives this very list, so nothing depends on how sorted works |
| StableSort.SortKeepsLastIff | tools/sort-headers.py:95-96 | the last element stays last if and only if nothing belongs after it |
| StableSort.StringsAreOrdered | tools/sort-headers.py:95-96 | the comparison of strings is a total order |
| StableSort.ListsAreOrdered | tools/sort_sources.py:132-134 | so is the comparison of lists of strings |
| StableSort.StringsAscend | tools/sort-headers.py:95-96 | a string is not after another if and only if they are equal, it is a beginning of the other, or it is smaller where they first differ |
| FileText.ReadBackIff | tools/sort-headers.py:83-103 | lines written one after the other are read back as they were if and only if each has its newline, at its end, but for the last |
| SortedFiles.FilePermutesIff | tools/sort-headers.py:81-103 | for any kind of run and any order: the lines of a file survive sorting if and only if its end is safe |
| LineBlocks.WriteMapped | tools/sort-headers.py:81-103 | the two loops over one iterator rearrange every maximal run, also one at the end of the file, and write every other line once |
| SortHeaders.SortHeader | tools/sort-headers.py:81-103 | writes what Sorted says |
| SortHeaders.SortedPermutes | tools/sort-headers.py:81-103 | on the level of lines: those written are a permutation of those read, and sorting the list of them again changes nothing |
| SortHeaders.SortHeaderFile | tools/sort-headers.py:81-103 | the file that is written for a file: its lines with their newlines, sorted, one after the other |
| SortHeaders.FileReadsBackIff | tools/sort-headers.py:81-103 | for every file: the file written, read again, has the sorted lines if and only if the file is empty, ends in a newline, its last line is no include, or no include of its last block has a greater key than its last line |
| SortHeaders.FileSortedPermutes | tools/sort-headers.py:81-103 | for every file: no line is lost or made up if and only if that condition holds, and then sorting the file again changes nothing |
| SortHeaders.FileSortedIdempotentIff | tools/sort-headers.py:81-103 | for every file: sorting it twice is sorting it once if and only if no include of the file written is directly followed by one that belongs before it |
| SortHeaders.LastIncludeIsGlued | tools/sort-headers.py:89-100 | a file of two includes in the wrong order, the last without a newline, becomes one line |
| SortHeaders.SortingAgainChanges | tools/sort-headers.py:89-100 | a file of three times the same include, the last without a newline, is changed by sorting it a second time |
| SortHeaders.OtherLinesStay | tools/sort-headers.py:101-103 | lines that are no includes keep their index, and includes stay among the indices of includes |
| SortHeaders.BlocksAreSortedStably | tools/sort-headers.py:84-96 | every maximal block of includes holds its own lines in the order of their keys, equal keys as they were |
| SortHeaders.FileUnchangedIffInOrder | tools/sort-headers.py:150-156 | a file is left as it is if and only if no include is directly followed by one that belongs before it |
| SortHeaders.KeyShowsRank | tools/sort-headers.py:40-72 | the first character of the key is the kind of header |
| SortHeaders.RanksFollow | tools/sort-headers.py:49-72 | in every block of the result: config.h and windows.h, then the other Windows headers, C headers, C++ headers, headers of the project |
| SortHeaders.HeaderOrder | tools/sort-headers.py:40-72 | of two includes the one of the lower rank comes first; within a rank the smaller name, for C and C++ system headers without regard to case; config.h and windows.h are equal |
| SortHeaders.NamesFollow | tools/sort-headers.py:49-96 | in every block of the result, headers of one rank ascend by name, system headers without regard to case |
| SortHeaders.LowerForgetsCase | tools/sort-headers.py:65-70 | lower-casing leaves the same letters and no capital; two names become equal if and only if they differ in nothing but case |
| SortHeaders.ContainsIff | tools/sort-headers.py:67-70 | a header is taken for one of C if and only if ".h>" occurs somewhere in it |
| SortHeaders.IncludeForms | tools/sort-headers.py:40-78 | a line that begins in any of the three ways is an include, and what follows is its name |
| SortSources.Flush | tools/sort_sources.py:131-135 | appends every source with its comments directly above it, in sorted order |
| SortSources.SortLines | tools/sort_sources.py:118-140 | the loop does what Sorted says, for any way to tell comments and sources apart |
| SortSources.SortSources | tools/sort_sources.py:103-140 | the same with the tool's own patterns |
| SortSources.PrintParsed | tools/sort_sources.py:121-139 | a list printed from its groups is the list |
| SortSources.ParsePrinted | tools/sort_sources.py:121-127 | groups read back from a printed list are the groups |
| SortSources.LinesWritten | tools/sort_sources.py:121-140 | exactly the lines before the list at the very end are written, each once |
| SortSources.PermutesIffClosed | tools/sort_sources.py:121-140 | the output is a permutation if and only if the input is empty or ends in a line that is neither comment nor source |
| SortSources.FileReadsBack | tools/sort_sources.py:151-168 | for every file: what is written is read back as it was written, a last line without newline included |
| SortSources.FilePermutesIffClosed | tools/sort_sources.py:151-168 | for every file: no line is lost if and only if its last line is neither comment nor source, and sorting twice is sorting once |
| SortSources.UnclosedListIsLost | tools/sort_sources.py:121-140 | a file of one source and nothing after it becomes empty |
| SortSources.SortedIdempotent | tools/sort_sources.py:103-140 | sorting twice is sorting once |
| SortSources.OtherLinesStay | tools/sort_sources.py:128-139 | lines that are neither comments nor sources keep their index |
| SortSources.ListsAreSorted | tools/sort_sources.py:121-139 | every list that something follows becomes the same sources, each with its own comments directly above it, in order of source and then comments; comments below the last source stay there |
| SortSources.SourcesAscend | tools/sort_sources.py:131-135 | in every list of the result that something follows, sources ascend as in a dictionary, equal ones by their comments |
| SortSources.CommentIff | tools/sort_sources.py:100-122 | a line is a comment if and only if it is white space, at least one of it, and then a number sign |
| SortSources.SourceIff | tools/sort_sources.py:96-125 | a line is a source if and only if, but for a newline at its end, it reads white space, quote, anything on one line, dot, suffix, quote, comma |

## Left out

- HandleWatcher on a thread that itself runs MessagePumpMojo (SameThreadWatchingState): only what its pump does to watches started in a deadline callback is modelled; otherwise it is one AddHandler and one RemoveHandler.
- Nested Run loops, Quit, ScheduleWork and the control pipe of the pump: no table of handlers is involved; a callback that runs a nested loop is not modelled.
- Observers of the pump, tracing, logging, DCHECK-only state and the shrinking of vectors.
- Mojo bindings, WaitMany, shared memory mapping, real clocks and task runners: they are parameters, queues of tasks, or any result at all.
- Concrete mixers (throttle, ALSA, standard output): a mixer is any sequence of paired calls.
- Gain, rate control and LinearTransform: the transform of time stamps is any partial function.
- Packets that AudioPipe rejects after SendPacket accepted them: their callback runs at once and they never become part of the audio machine.
- An output whose Init fails: it only calls ShutdownSelf before any worker exists; RemoveTrackLink: nothing calls it.
- The links and packets of the audio server are records in one state, not heap objects: aliasing shows as equal numbers.
- Use of one HandleWatcher handle by two watchers on one pump thread, which AddHandler's CHECK forbids: the pump's functions return None there.
- AudioPipe.Step: a pipe that was closed by a second Configure can be configured again, while the real track is shut down for good; the model allows more runs than there are.
- AudioPipe.Wrap64: signed overflow of a time stamp is undefined in C++; the model wraps around.
- TransitiveHash.CollectedIsExact: that files of equal hash have dependencies of equal hashes is sufficient and not necessary (which files are skipped depends on the order of the whole depth-first walk); the final sha256 over the sorted hashes, a function of the set, is not modelled, nor is the parsing of ldd's output.
- RemoteFileTheorems.ReadDelivers: reads of a file deliver all that is there up to the size asked for, and the two sscanf calls are any partial functions; positions do not overflow and whence values other than 0, 1 and 2 fail; sockets, select and main are left out.
- SortHeaders.KeyShowsRank: lower-casing is that of ASCII.
- The confirmation prompts, diffs and file handling around the two sorters.
- The binding sets of mojo/common, the test helpers, the examples and the remaining scripts: thin wrappers, generated code or input and output.
