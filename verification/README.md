# Verified model of the rflow push demo, client library and latency tools

This project models, in Dafny, the parts of the repository whose correctness depends on long runs rather
than on single functions, and proves what those parts promise. Nothing here executes the original program.

- **Push demo** (`PushTrace`, `PushModel`, `PushSafety`, `PushRuns`, `PushRaces`, `PushCover`, `PushProgress`,
  `PushDemo`). A service loop
  reacts to a camera that comes, goes and moves, to a signalling connection that drops, and to SDK callbacks,
  and owns at most one stream. `PushTrace` is a reference definition of a lawful history, written without
  reference to the session's fields or control flow. `PushModel` gives the state as a function of everything
  the outside world decides. `PushSafety` and `PushRuns` prove every history of every run lawful. `PushDemo`
  is the session, the monitor and the main program as classes and loops, proved equal to `PushModel`.
  `PushRaces` holds two concrete runs in which a promise fails, and `PushCover` the fate of an invariant one
  would expect. `PushProgress` says what each operation achieves: its calls in order, and when it succeeds.
- **Client library** (`ClientModel`, `ClientLibrary`). Connect, disconnect, uninit, open and close as critical
  sections that interleave freely; the state object with its mutex is proved to refine the interleaving.
- **Stream statistics** (`StreamStats`). Wrapping 64-bit counters, a 32-bit rate, emissions once a second.
- **Reference counting** (`RefCounting`, `RefCountingRuns`, `RtpPacketInfos`). Smart pointers over a whole
  heap, and the immutable shared sequence built on them.
- **Latency tool** (`Dicts`, `RtpOffset`, `OffsetRecovery`, `LatencyStats`, `LatencyPairing`). Folding, pairing, offset inference
  and percentiles.
- **Camera choice** (`CameraChoice`). Score, sort and scan.

## What is false of the code, and when it holds

- The apps README promises that a lost connection takes the stream down before reconnecting
  (apps/README.md:74). From any reachable state a tick breaks this exactly when it `Collides`: its teardown
  checks let the stream live, and then, before its reconnect check, the session stands unconnected with the
  connect backoff over and a reconnect or a due stream restart wanted (`PushSafety.TickKeeps`). Over a whole
  run, svc_connect or svc_disconnect is called with a handle in existence exactly when the tick of some
  iteration collides (`PushRuns.NoSignallingWhileHeld`). `PushRaces` holds a run for each of two ways
  there: a report that lands between the two checks (`LossInsideTick`), and a loss reported while
  `start_stream` runs, which the flag store after it erases (`LossDuringStart`,
  apps/common/demo_push_session.cpp:271). `PushSafety.StartWindow` says exactly when that store erases a
  restart. A condition on the inputs alone that rules collisions out, but is stronger than needed, is
  `PushRuns.QuietRun` (`PushRuns.QuietRunKeeps`).
- The mutual invariant one would expect, that a held stream implies a connection or a pending stream restart,
  is broken by a single callback exactly when the stream is held, no restart is pending and the report is IDLE
  or CONNECTING (`PushCover.HandleUncovers`); `PushCover.DeliverUncovers` says the same of any window of
  callbacks, `PushCover.TickCovers` of any tick, `PushCover.BootCovers` of the start-up, and
  `PushCover.RunCovers` of a whole run: it holds throughout exactly when no stream comes up on a last report
  other than CONNECTED and no window breaks it. `PushCover.IdleReportUncovers` is a run that ends with the
  stream held, the session unconnected and neither restart wanted. The safety proofs use the weaker
  `PushSafety.Guarded`: a held stream with a pending reconnect has its own restart pending.
- `librflow_open_stream` can return success with a handle that is already out of the table
  (`ClientModel.OpenMayReturnDeadHandle`). The handle it returns is in the table exactly when, since the entry
  was reserved, nobody closed it and no disconnect took the table (`ClientModel.OpenReturnsLiveHandle`).
- The client documentation promises that closing a handle again is harmless
  (docs/client-sdk/03-states.md:73). Handles are addresses, so a repeated close can take a newer stream
  (`ClientModel.StaleCloseTakesNewStream`); it does so exactly when the address was given to a new stream since
  and nothing has taken that one out (`ClientModel.RepeatedClose`).
- The reported frame rate is the true quotient exactly when neither the 64-bit product nor the 32-bit result
  overflows (`StreamStats.FpsExact`, with `StreamStats.FpsOverflows` as an input), which with fewer than 2^32
  frames between emissions never happens (`StreamStats.DeltasAddUp`).
- Offset inference recovers every shift of a probe of at least four keys exactly when no turn of the 32-bit
  circle maps the send keys into themselves (`RtpOffset.RecoveredIffAsymmetric`), which a span below half the
  circle guarantees (`RtpOffset.ExactRecovery`). Otherwise it can be wrong (`RtpOffset.HalfTurnIsLost`), though
  the offset it names always explains every key (`RtpOffset.ExplainsEveryKey`). Logs are sorted and cut to 120
  keys first. The result carries over to logs of at most 120 keys (`OffsetRecovery.ShortLogsRecovered`) and to
  longer ones whose keys all wrap around or all do not (`OffsetRecovery.LongLogsRecovered`); a longer log half of
  whose keys wrap can be lost (`OffsetRecovery.WrappedLogLost`).
- The preferred-camera variable is documented as a substring match (apps/README.md:71). It is compared with the
  lower-cased model name, so a preference that the model contains counts exactly when it holds no capital
  letter (`CameraChoice.PreferenceCounts`, with `CameraChoice.ExactModelIgnored` as an input). A usable preferred
  device is chosen ahead of the others, but a device with every other bonus ties with a preferred one that has
  none (`CameraChoice.PreferredChosen`).
- The fallback for an unset `present_since_` in `IsStableAndReady` is dead code (`PushSafety.StableAndReady`),
  and so are the clamps of the percentile rank (`LatencyStats.ClampsIdle`) and of the elapsed time
  (`StreamStats.DeltasAddUp`).

## Model

| member | source | states |
|---|---|---|
| PushRuns.RunIsLawful | apps/push_demo_sdk.cpp:61-130 | for every camera, threshold, SDK result, callback, udev event and delay, the whole history of start-up and loop obeys every law of `PushTrace.Allowed` |
| PushRuns.NoSignallingWhileHeld | apps/common/demo_push_session.cpp:284-335 | in a run every handle created so far has been destroyed at each svc_connect and svc_disconnect iff no iteration's tick collides |
| PushRuns.LoopExclusive | apps/push_demo_sdk.cpp:95-122 | the loop, from any reachable state, touches signalling with a stream in hand iff one of the iterations it really makes collides |
| PushRuns.QuietRunKeeps | apps/common/demo_push_session.cpp:236-335 | if no start window ends on a loss and no callback in a tick's gap asks for a restart, no iteration collides and the run ends guarded |
| PushRuns.RunKeeps | apps/push_demo_sdk.cpp:61-122 | every run ends in the full invariant, from which lawfulness, the flags and the camera record follow |
| PushRuns.ExitFlagMeansFailures | apps/common/demo_push_session.cpp:85-111 | the exit flag is set iff the threshold N is positive and at some moment N failures of one kind had happened in a row; it implies a stop request; the counters are the trailing failure runs of the history |
| PushRuns.ShutdownDestroysAll | apps/push_demo_sdk.cpp:124-132 | however a run ends, after shutdown created handles equal destroyed handles and the history is still lawful |
| PushRuns.ShutdownDisconnectsLast | apps/push_demo_sdk.cpp:124-131 | the shutdown of any run calls signalling once, to disconnect, and by then every handle has been destroyed |
| PushRuns.LoopKeeps | apps/push_demo_sdk.cpp:95-122 | any number of loop iterations keep the invariant and the stop and exit flags once set; after at least one a stream is held only on a recorded camera |
| PushRuns.BootUpKeeps | apps/push_demo_sdk.cpp:61-78 | start-up reaches the invariant, and is guarded iff the first stream did not come up over a loss |
| PushRuns.QuietTickNeverCollides | apps/common/demo_push_session.cpp:292-307 | with no bad news in the two windows a tick never touches signalling with a stream in hand |
| PushRuns.TickGuards | apps/common/demo_push_session.cpp:284-335 | a tick preserves "held and reconnect pending implies restart pending" iff it does not bring a stream up over a loss |
| PushSafety.TickKeeps | apps/common/demo_push_session.cpp:284-335 | from any reachable state one tick keeps all laws, ends with no stream when a restart was wanted or the camera was gone, and touches signalling with a stream in hand iff it collides |
| PushSafety.StartWindow | apps/common/demo_push_session.cpp:236-282 | from a guarded state a start attempt loses a restart request iff the stream comes up and the last word of the callbacks inside it is a loss |
| PushSafety.DeliverReconnectFlag | apps/common/demo_push_session.cpp:74-83 | any sequence of callbacks leaves a reconnect pending iff a loss in it has no later CONNECTED, or one was pending and no CONNECTED came |
| PushSafety.ReconnectKeeps | apps/common/demo_push_session.cpp:162-193 | a reconnect keeps the laws, issues nothing when connected or within the backoff, and leaves stream and camera alone |
| PushSafety.TryStartKeeps | apps/common/demo_push_session.cpp:236-282 | a start attempt keeps the typestate on each of its exits and succeeds iff a stream is held afterwards |
| PushSafety.TeardownKeeps | apps/common/demo_push_session.cpp:223-234 | teardown stops then destroys the held handle, pays every owed stop, asks for a restart and opens the 2000 ms backoff from the clock it reads |
| PushSafety.StableAndReady | apps/common/demo_camera_hotplug.cpp:275-290 | ready iff present for at least the stable time with a path that opens; the unset-instant fallback never applies |
| PushSafety.PollWaitKeeps | apps/common/demo_camera_hotplug.cpp:241-273 | polling keeps the camera record equal to the history whichever events arrive, and never touches the stream |
| PushSafety.ApplyPresenceKeeps | apps/common/demo_camera_hotplug.cpp:177-189 | an edge is one event of the history, remembered with its instant, and raises the restart request; without an edge nothing changes |
| PushSafety.AdoptDevPathKeeps | apps/common/demo_camera_hotplug.cpp:114-126 | a migration moves session and monitor to the new path together, marks the camera present from that instant and raises both restart requests |
| PushSafety.NoticeKeeps | apps/common/demo_push_session.cpp:286-289 | reading the restart request clears it only after a stream restart has been asked for |
| PushTrace.TickStartIsJustified | apps/common/demo_push_session.cpp:308-334 | every stream a tick creates uses the followed path, the camera appeared at least 1500 ms before with no camera event since, and the node was opened for a check in that same tick |
| PushTrace.EdgeStopsStream | apps/common/demo_push_session.cpp:286-302 | a presence edge or migration while a handle runs is followed by the stop of that handle before the next tick ends |
| PushTrace.EdgeSeenBeforeStart | apps/common/demo_push_session.cpp:269-289 | between any camera edge and a later start the restart request is read, so the clear after a start discards no unseen edge |
| PushTrace.HeldAtTickEnd | apps/common/demo_push_session.cpp:292-302 | a handle running at the end of a tick has a camera that appeared and has had no event since |
| PushTrace.MovesKeepIdentity | apps/common/demo_camera_hotplug.cpp:151-156 | every migration carries the non-empty identity read at the first look |
| PushTrace.PresentSince | apps/common/demo_camera_hotplug.cpp:177-201 | the remembered instant is that of the last appearance, with no camera event after it |
| PushTrace.HandleTypestate | apps/common/demo_push_session.cpp:223-282 | the calls on each handle are create, start, stop, destroy or create, failed start, destroy, or a prefix; none after destroy |
| PushTrace.HandlesConserved | apps/common/demo_push_session.cpp:223-282 | creates equal destroys plus one exactly while a handle exists |
| PushTrace.TickStartAfterBackoff | apps/common/demo_push_session.cpp:231-256 | a start made by a tick is at least 2000 ms after every earlier teardown or failed start |
| PushTrace.StartFailuresApart | apps/common/demo_push_session.cpp:250-267 | n failed starts span at least (n-1) times 2000 ms |
| PushTrace.FailedRoundsApart | apps/common/demo_push_session.cpp:189-192 | n failed reconnect rounds span at least (n-1) times 3000 ms |
| PushTrace.AtMostTwoConnects | apps/common/demo_push_session.cpp:304-331 | a tick makes at most two connect attempts although the reconnect is reachable twice |
| PushTrace.TrailingStartFailures | apps/common/demo_push_session.cpp:95-102 | the start-failure count is the number of failures after the last success |
| PushTrace.TrailingRoundFailures | apps/common/demo_push_session.cpp:104-111 | the round-failure count is the number of failures after the last sign of a connection |
| PushTrace.PeakIsLongestRun | apps/common/demo_push_session.cpp:85-93 | the value compared with the threshold is the longest run of failures the history contains |
| PushRaces.LossDuringStart | apps/common/demo_push_session.cpp:259-272 | a concrete run: loss during start_stream, then a connect with the stream held |
| PushRaces.LossInsideTick | apps/common/demo_push_session.cpp:292-306 | a concrete run: loss between teardown and reconnect checks, then a connect with the stream held |
| PushCover.HandleUncovers | apps/common/demo_push_session.cpp:74-83 | one callback breaks "held implies connected or restart pending" iff it is an IDLE or CONNECTING report on a held stream with no restart pending |
| PushCover.DeliverUncovers | apps/common/demo_push_session.cpp:74-137 | a window of callbacks breaks it iff none of them asks for a restart and the last connection report is IDLE or CONNECTING |
| PushCover.TickCovers | apps/common/demo_push_session.cpp:284-335 | a tick, colliding or not, breaks it iff the callbacks after its teardown checks do, or a stream comes up on a last report other than CONNECTED |
| PushCover.BootCovers | apps/push_demo_sdk.cpp:61-78 | start-up ends without it iff the first stream came up on a last report other than CONNECTED |
| PushCover.RunCovers | apps/push_demo_sdk.cpp:61-122 | it holds after start-up, after every window of callbacks and at the end of every iteration iff the first start and no iteration breaks it |
| PushCover.IdleReportUncovers | apps/common/demo_push_session.cpp:74-83 | a concrete run with one IDLE report that ends with a held stream, no connection and no restart wanted |
| PushProgress.TickOutcome | apps/common/demo_push_session.cpp:284-335 | a tick with a restart wanted or the camera gone takes the held stream down; any other keeps it, reconnects if wanted, and holding nothing ends with a stream iff camera, node, backoff, connection, create and start all allow it; its calls are given in order |
| PushProgress.RestOutcome | apps/common/demo_push_session.cpp:308-334 | the part of a tick after the reconnect opens the node once the camera is stable and then starts a stream, reconnects, or does nothing |
| PushProgress.ReconnectOutcome | apps/common/demo_push_session.cpp:162-193 | a reconnect succeeds iff already connected, or the backoff is over and the first or the second attempt works; its calls are none, Connect, or Connect, Disconnect, Connect, and the round fails iff both attempts do |
| PushProgress.AttemptOutcome | apps/common/demo_push_session.cpp:113-124 | an attempt works iff it returns OK and the last connection report leaves the session connected |
| PushProgress.StartOutcome | apps/common/demo_push_session.cpp:236-282 | a start brings a stream up iff connected and both calls succeed; a refused one counts, wants a restart and opens the backoff; its calls are given in order |
| PushProgress.TeardownOutcome | apps/common/demo_push_session.cpp:223-234 | a teardown stops and destroys the held handle, in that order, and opens the backoff |
| PushProgress.OpeningOutcome | apps/common/demo_push_session.cpp:286-289 | a tick starts by turning a restart request of the monitor into one of the session, and only that |
| PushProgress.UdevOutcome | apps/common/demo_camera_hotplug.cpp:128-157 | removal of the followed node ends absent and an add of it present, an edge iff that changes anything; an add of another node is followed iff it has the recorded non-empty identity and opens; other events change nothing |
| PushProgress.DrainConcat | apps/common/demo_camera_hotplug.cpp:92-100 | draining takes the events one after another, none skipped |
| PushProgress.UdevPollOutcome | apps/common/demo_camera_hotplug.cpp:243-259 | a poll takes in every event that arrived, and five seconds after the last look notices a held stream whose node is gone |
| PushProgress.ProbePollOutcome | apps/common/demo_camera_hotplug.cpp:260-266 | without udev the record equals what the node probe found, every two seconds |
| PushProgress.SyncOutcome | apps/common/demo_camera_hotplug.cpp:191-201 | the first look records identity, presence and instant, and asks for a restart iff the camera is missing |
| PushProgress.MonitorOutcome | apps/common/demo_camera_hotplug.cpp:207-226 | the monitor starts both intervals at one clock reading and takes in the waiting events iff udev opened |
| PushProgress.StatsOutcome | apps/push_demo_sdk.cpp:105-121 | every five seconds the statistics of a held stream are read and the interval starts anew either way |
| PushProgress.LoopConcat | apps/push_demo_sdk.cpp:96-122 | the loop makes one iteration after another, none skipped |
| PushProgress.LoopOne | apps/push_demo_sdk.cpp:96-122 | an iteration takes place iff no stop is requested |
| PushProgress.BootOutcome | apps/push_demo_sdk.cpp:61-95 | start-up goes on iff the first connect works, and a stream comes up iff the session is still connected after the camera part and both calls succeed |
| PushProgress.BootCameraOutcome | apps/push_demo_sdk.cpp:67-73 | the camera part is a first look, the monitor's start and one poll; a restart request left over becomes the session's |
| PushProgress.ShutdownOutcome | apps/push_demo_sdk.cpp:124-130 | shutdown stops and destroys what is held and then disconnects |
| PushDemo.PushDemoSession.ServiceTick | apps/common/demo_push_session.cpp:284-335 | the method's whole new state and history are those of the model's tick |
| PushDemo.PushDemoSession.TryReconnectSignaling | apps/common/demo_push_session.cpp:162-193 | result and whole new state are those of the model's reconnect, early exits included |
| PushDemo.PushDemoSession.TryStartStream | apps/common/demo_push_session.cpp:236-282 | result and whole new state are those of the model's start, on all five exits |
| PushDemo.PushDemoSession.TeardownStream | apps/common/demo_push_session.cpp:223-234 | the whole new state is that of the model's teardown |
| PushDemo.PushDemoSession.HandleConnectState | apps/common/demo_push_session.cpp:74-83 | the connection callback changes exactly the flags and counter the model says |
| PushDemo.PushDemoSession.HandleStreamState | apps/common/demo_push_session.cpp:126-137 | the stream callback changes exactly the flags the model says |
| PushDemo.PushDemoSession.StopStreamForExit | apps/common/demo_push_session.cpp:337-343 | stops and destroys the held handle, if any, and forgets it |
| PushDemo.CameraHotplugMonitor.PollWait | apps/common/demo_camera_hotplug.cpp:241-273 | both branches with their time gates give the model's new state |
| PushDemo.CameraHotplugMonitor.HandleUdevDevice | apps/common/demo_camera_hotplug.cpp:128-157 | every udev event gives the model's new state, the session's path included |
| PushDemo.CameraHotplugMonitor.SyncInitialPresence | apps/common/demo_camera_hotplug.cpp:191-201 | the first look gives the model's new state |
| PushDemo.CameraHotplugMonitor.IsStableAndReady | apps/common/demo_camera_hotplug.cpp:275-290 | answers as the model does and changes nothing but the history |
| PushDemo.RunProgram | apps/push_demo_sdk.cpp:61-132 | the program with its loop ends in the state of the model's run, with exit code 1, 2 or 0 for a failed first connect, the failure exit, or a stop |
| ClientModel.TableIsSound | src/client/stream.cpp:112-129 | under every interleaving no two table entries share an index and a non-empty table implies Connected |
| ClientModel.UninitClearsNothing | src/client/lifecycle.cpp:85-102 | whenever uninit reaches its clear the table is already empty |
| ClientModel.OneTakerPerEntry | src/client/stream.cpp:112-174 | the insertions and removals of a handle alternate, insertion first, and it is in the table exactly after an odd number of them, addresses being reusable |
| ClientModel.NoSecondTaker | src/client/stream.cpp:190-195 | between two events that take the same handle it was inserted again, so racing closes of one entry take effect once |
| ClientModel.InTableIff | src/client/stream.cpp:128-195 | after any steps a handle is in the table iff nothing took it out since it was there or was last put in |
| ClientModel.OpeningStep | src/client/stream.cpp:106-187 | an address is being opened from its reservation to its own finish, successful or not |
| ClientModel.OpenReturnsLiveHandle | src/client/stream.cpp:112-187 | a successful open returns a handle that is in the table iff, since it reserved the entry, nobody closed it and no disconnect took the table |
| ClientModel.RepeatedClose | src/client/stream.cpp:190-210 | a second close of a handle takes a stream iff the address was given to a new stream since and nothing took that one out |
| ClientModel.StaleCloseTakesNewStream | src/client/stream.cpp:128-195 | an interleaving in which a second close of a handle removes the stream opened later at its address |
| ClientModel.EntriesConserved | src/client/lifecycle.cpp:155-179 | inserted equals live plus closed plus snapshotted by disconnect plus erased by failed opens |
| ClientModel.ReportsAlternate | src/client/lifecycle.cpp:104-193 | the user hears CONNECTED, DISCONNECTED in strict alternation, CONNECTED first |
| ClientModel.ReportsCounted | src/client/lifecycle.cpp:104-193 | in every interleaving CONNECTED is reported once per connect that commits with a callback and DISCONNECTED once per disconnect that ends one, a failed connect or an idle disconnect adding nothing |
| ClientModel.LifeStep | src/client/lifecycle.cpp:71-193 | each of the four lifecycle states by what leads there and what leads away, a failed connect leading back to Inited |
| ClientModel.UninitIff | src/client/lifecycle.cpp:71-102 | in any interleaving the client is uninitialised iff no init succeeded since it was so or since an uninit last cleared it |
| ClientModel.ConnectedIff | src/client/lifecycle.cpp:137-179 | it is connected iff no disconnect took effect since it was so or since the last commit |
| ClientModel.ConnectAccepted | src/client/lifecycle.cpp:115-126 | between calls, an initialised client that is not connected accepts a connect, after a failed one too |
| ClientModel.OpenMayReturnDeadHandle | src/client/stream.cpp:176-187 | an interleaving in which a successful open returns a handle no longer in the table |
| ClientModel.ProtocolKept | src/client/internal/state_ops.cpp:25-61 | every step keeps: table empty unless Connected, callback stored exactly while Connecting or Connected, reports alternating and agreeing with where the lifecycle call stands |
| ClientModel.LedgerKept | src/common/base/stream_handle_ops.h:64-73 | every step keeps the per-handle and the total accounts of the table balanced |
| ClientLibrary.State.Connect | src/client/lifecycle.cpp:104-153 | with any stream calls in its two gaps it is the apply, finish, report interleaving and ends Connected, Inited or unchanged by its result; the mutex is free whenever the callback runs |
| ClientLibrary.State.Disconnect | src/client/lifecycle.cpp:155-193 | with any stream calls in its gap it is the take, report interleaving and ends Inited iff it found a connection; the callback runs outside the mutex |
| ClientLibrary.State.Uninit | src/client/lifecycle.cpp:85-102 | ends Uninit with an empty table and a kept invariant, whatever stream calls interleave |
| ClientLibrary.State.OpenStream | src/client/stream.cpp:94-188 | reserve and finish with any steps of other threads between, lifecycle steps included; the results with their conditions, and when the returned handle is live |
| ClientLibrary.State.CloseStream | src/client/stream.cpp:190-210 | takes the entry iff it is there |
| ClientLibrary.State.Interleave | src/client/lifecycle.cpp:71-193 | any script of critical sections of any calls drives the object to the state of the model's run, with the mutex free between them |
| StreamStats.DeltasAddUp | src/client/stream.cpp:42-88 | since a reset the emitted deltas add up to the counter at the last emission (modulo 2^64 in the field, exactly in the sum), emissions are at least a second apart, elapsed times at least 1000, and fps times elapsed <= 1000 delta < (fps + 1) times elapsed |
| StreamStats.EmissionCatchesUp | src/client/stream.cpp:50-86 | a frame emits iff there is a callback, a second has passed and the allocation works, and then every frame so far is accounted for |
| StreamStats.FpsExact | src/client/stream.cpp:83 | fps is delta times 1000 over elapsed rounded down iff neither the 64-bit product nor the 32-bit result overflows |
| StreamStats.FpsOverflows | src/client/stream.cpp:83 | 2^32 frames in a second are reported as a rate of 0 |
| StreamStats.StreamHandle.MaybeEmitPeriodicStats | src/client/stream.cpp:50-88 | the fields change as the emission function says, early exits included |
| RefCountingRuns.Run | include/webrtc/api/scoped_refptr.h:78-160 | after any script of construct, copy, move, assign, swap, release, destroy and raw AddRef or Release, each object's count is the pointers showing it plus its outstanding raw references, and it has been deleted once iff both are none |
| RefCountingRuns.RunOut | include/webrtc/api/scoped_refptr.h:104-107 | once the last pointer dies and the last raw reference is returned every object has count 0 and was deleted exactly once |
| RefCountingRuns.CountConserved | include/webrtc/api/ref_counted_base.h:27-34 | in every valid heap the count is the number of pointers showing the object plus raw references, and deletion is decided by it |
| RefCounting.ScopedRefPtr.Alive | include/webrtc/api/scoped_refptr.h:109-112 | what a live pointer shows has not been deleted |
| RefCounting.Counted.Release | include/webrtc/api/ref_counted_base.h:68-84 | drops one raw reference, deletes iff it was the last of all, never touches a deleted object |
| RefCounting.ScopedRefPtr.Assign | include/webrtc/api/scoped_refptr.h:125-133 | the old object loses this holder, the new one gains it, raw references stay, self-assignment included |
| RefCounting.ScopedRefPtr.AssignMove | include/webrtc/api/scoped_refptr.h:144-147 | the reference moves over and the source is null, except for self-move, which changes nothing |
| RefCounting.ScopedRefPtr.Move | include/webrtc/api/scoped_refptr.h:98-102 | the reference moves over without the count moving |
| RefCounting.ScopedRefPtr.Swap | include/webrtc/api/scoped_refptr.h:160 | holders are exchanged and no count moves, self-swap included |
| RefCounting.ScopedRefPtr.SwapRaw | include/webrtc/api/scoped_refptr.h:154-158 | exchanges with a caller's raw slot, raw references moving the other way |
| RefCounting.ScopedRefPtr.Release | include/webrtc/api/scoped_refptr.h:119-123 | leaves null and hands exactly one raw reference to the caller |
| RtpPacketInfos.Run | include/webrtc/api/rtp_packet_infos.h:50-79 | after any chain of constructions, copies, moves, assignments and destructions every value reads as plain immutable sequences would, no vector was allocated for an empty sequence, and a vector is alive iff some value shows it |
| RtpPacketInfos.ApplyLaws | include/webrtc/api/rtp_packet_infos.h:50-60 | each operation changes the values it names as assignment of sequences would, and no other |
| RtpPacketInfos.Album.SharedWhileShown | include/webrtc/api/rtp_packet_infos.h:82-125 | a shared vector's count is the number of values showing it |
| RtpPacketInfos.Album.Reads | include/webrtc/api/rtp_packet_infos.h:58-79 | size, bounds-checked access and emptiness agree with the sequence put there; empty iff nothing is allocated |
| RtpPacketInfos.PacketInfos.FromVector | include/webrtc/api/rtp_packet_infos.h:82-105 | shows the given sequence and allocates iff it is non-empty |
| RtpPacketInfos.PacketInfos.Move | include/webrtc/api/rtp_packet_infos.h:57-60 | takes the sequence over and leaves the other empty |
| RtpOffset.InferRtpOffset | tools/parse_e2e_latency.py:55-67 | the result is a most frequent offset, the first counted among equals, or None iff no offset has four pairs |
| RtpOffset.CountOffsets | tools/parse_e2e_latency.py:60-63 | the dictionary holds each offset's number of pairs, in the order the offsets were first seen |
| RtpOffset.WinnerUnique | tools/parse_e2e_latency.py:66-67 | that description leaves one result |
| RtpOffset.ScoresAddUp | tools/parse_e2e_latency.py:60-63 | the scores of all offsets add up to the product of the probe lengths |
| RtpOffset.ScoreCountsPartners | tools/parse_e2e_latency.py:61-63 | the score of an offset is the number of send keys whose shifted key was received |
| RtpOffset.ScoreBound | tools/parse_e2e_latency.py:61-63 | no score exceeds the shorter probe |
| RtpOffset.ExplainsEveryKey | tools/parse_e2e_latency.py:55-67 | of a probe shifted by k, at least four keys long, the result is an offset under which every send key was received |
| RtpOffset.ExactRecovery | tools/parse_e2e_latency.py:55-67 | if the keys also span less than 2^31 the result is exactly k mod 2^32 |
| RtpOffset.RecoveredIffAsymmetric | tools/parse_e2e_latency.py:55-67 | of four or more send keys every shift is recovered iff no turn of the circle maps them into themselves |
| RtpOffset.SymmetryMisleads | tools/parse_e2e_latency.py:55-67 | a turn that maps the keys into themselves is a shift whose result is always 0 |
| RtpOffset.EqualProbes | tools/parse_e2e_latency.py:55-67 | equal probes always give offset 0 |
| RtpOffset.HalfTurnIsLost | tools/parse_e2e_latency.py:55-67 | four keys shifted by half the circle are reported as shifted by nothing |
| OffsetRecovery.ShortLogsRecovered | tools/parse_e2e_latency.py:286 | for logs of 4 to 120 keys, wrapping or not, the sorted and probed keys give the true offset of an asymmetric log |
| OffsetRecovery.LongLogsRecovered | tools/parse_e2e_latency.py:58-59 | for logs of any length whose keys the shift moves alike the sorted and cut probes still correspond, and the true offset is found |
| OffsetRecovery.WrappedLogLost | tools/parse_e2e_latency.py:58-59 | 200 keys within 600000 of each other, half of which wrap, for which the true offset is not the one found |
| Dicts.FirstSeenOrder | tools/parse_e2e_latency.py:66 | iteration order is the order of first insertion |
| LatencyPairing.FoldPush | tools/parse_e2e_latency.py:193-204 | the transmit dictionaries hold the last matching line per key, keys in order of first appearance |
| LatencyPairing.FoldPull | tools/parse_e2e_latency.py:206-242 | the receive and presentation dictionaries hold the first matching line per key |
| LatencyPairing.PushStep | tools/parse_e2e_latency.py:197-204 | each transmit line adds its RTP pair, and its trace pair iff the trace is not zero |
| LatencyPairing.PullStep | tools/parse_e2e_latency.py:211-242 | what each kind of receive line adds to the three lists |
| LatencyPairing.LastWinsUnique | tools/parse_e2e_latency.py:201-204 | "last line per key" determines the dictionary |
| LatencyPairing.FirstWinsUnique | tools/parse_e2e_latency.py:217-242 | "first line per key" determines the dictionary |
| LatencyPairing.CollectDeltas | tools/parse_e2e_latency.py:112-132 | each metric is present iff both its ends are usable and in order, with their difference, against a table of metric ends |
| LatencyPairing.AddPresentation | tools/parse_e2e_latency.py:251-256 | adds exactly the three presentation metrics the table defines |
| LatencyPairing.IntervalsAre | tools/parse_e2e_latency.py:112-132 | the eleven metrics one by one |
| LatencyPairing.TracesMeasured | tools/parse_e2e_latency.py:246-260 | a trace in both logs contributes each of its measured intervals, presentations included, to its bucket |
| LatencyPairing.StagesAddUp | tools/parse_e2e_latency.py:118-131 | where the stages of a frame are measured the long intervals are too and are their sums |
| LatencyPairing.PairUp | tools/parse_e2e_latency.py:244-271 | the pair count is the size of the key intersection and every bucket is the measured values of those pairs in order |
| LatencyPairing.BucketSize | tools/parse_e2e_latency.py:257-260 | a bucket has one value per pair measuring its metric |
| LatencyPairing.BucketFits | tools/parse_e2e_latency.py:257-260 | a bucket is never longer than the number of pairs |
| LatencyPairing.BucketNonNegative | tools/parse_e2e_latency.py:112-132 | outside the wall-clock bucket no value is negative |
| LatencyPairing.Analyse | tools/parse_e2e_latency.py:191-291 | the report is by trace iff eight traces pair, else by RTP time iff eight pair, else the inferred offset, else none with exit code 1; each printed summary is of its bucket |
| LatencyStats.Print | tools/parse_e2e_latency.py:78-109 | nothing for an empty list; otherwise min <= p50 <= p95 <= p99 <= max, all of them values of the list, min and max bounding it, the exact mean between them, and the list left sorted |
| LatencyStats.Sorted | tools/parse_e2e_latency.py:81 | ascending and a permutation |
| LatencyStats.RoundUnique | tools/parse_e2e_latency.py:74 | rounding is the only nearest-with-ties-to-even choice |
| LatencyStats.ClampsIdle | tools/parse_e2e_latency.py:70-75 | for percentages the rank needs no clamping |
| LatencyStats.RankMonotone | tools/parse_e2e_latency.py:70-75 | a higher percentage never has a lower rank |
| CameraChoice.ProbeDefaultCaptureDevice | apps/common/demo_v4l_linux.cpp:111-171 | the path is that of a ready, non-negative capture device than which none is better in score, then index; the fallback iff there is none; never a decoder node |
| CameraChoice.GatherCandidates | apps/common/demo_v4l_linux.cpp:127-148 | the list is one candidate per eligible entry, in the order of the enumeration |
| CameraChoice.CandidatesAre | apps/common/demo_v4l_linux.cpp:127-148 | something is a candidate iff an entry that is a capture device with a numbered node has that score, index and path |
| CameraChoice.NegativeIffDecoder | apps/common/demo_v4l_linux.cpp:51-73 | a score is negative iff the node carries the decoder marker, whatever the bonuses |
| CameraChoice.ScoreParts | apps/common/demo_v4l_linux.cpp:51-73 | nothing scores nothing, and bus, driver, camera in the model, decoder marker and preference each add their own points whatever the rest |
| CameraChoice.ModelCaseIgnored | apps/common/demo_v4l_linux.cpp:58-64 | the case of the model's letters makes no difference |
| CameraChoice.PreferredWins | apps/common/demo_v4l_linux.cpp:62-63 | a preferred device scores more than any other, or ties when it has no other bonus and the other has all of them |
| CameraChoice.PreferredChosen | apps/common/demo_v4l_linux.cpp:153-166 | where a usable device is preferred the chosen one is too, but for that tie |
| CameraChoice.UsableIff | apps/common/demo_v4l_linux.cpp:136-161 | an entry can be chosen iff its node is a capture node with a number below 2^31, carries no decoder marker and opens |
| CameraChoice.PreferenceCounts | apps/common/demo_v4l_linux.cpp:58-64 | a preference contained in the model counts iff it holds no capital letter |
| CameraChoice.CapitalPreferenceIgnored | apps/common/demo_v4l_linux.cpp:58-64 | a preference holding a capital letter never changes a score |
| CameraChoice.ExactModelIgnored | apps/common/demo_v4l_linux.cpp:58-64 | a device whose model contains the preference exactly as written and scores as if there were none |
| CameraChoice.SortCandidates | apps/common/demo_v4l_linux.cpp:153-157 | a permutation with no later candidate better than an earlier one |

## Left out

- OffsetRecovery.LongLogsRecovered: one direction only; a long log of which some keys wrap is recovered or not depending on how many of its probed keys still correspond.
- StreamStats.DeltasAddUp: assumes fewer than 2^64 frames between two emissions, a steady clock past its epoch and one frame callback at a time; the rate bound is for fewer than 2^32 frames in an interval and an elapsed time below 2^63 ms.
- Callback timing: SDK callbacks are taken between the steps of the main loop, inside every SDK call, and between a tick's teardown checks and its reconnect check; a callback between two other adjacent statements is not modelled.
- Integer width of the failure counters, the reference count and the demo's handle number: unbounded.
- Client handles: a new stream may get any address but one in the table or being opened; that memory still held by a closing call or a callback cannot recur either is not used.
- Clocks: the steady clock is monotone and positive; durations are exact nanoseconds and gates truncate to milliseconds as the source does.
- Foreign calls (udev, V4L2, poll, open, access, environment, signals): their results are inputs of the operations; a device's readiness is fixed during one camera choice.
- The builds without Linux or without the RTC API: not modelled; the second opens streams inside the call without a session.
- Exceptions of C++ allocation and threads inside reference counting: the count's atomicity is taken as given, operations on the heap are one at a time.
- Lifecycle calls of the client are serial, as its header demands; `set_global_config`, handle magic checks and parameter validation are not modelled.
- The per-stream CLOSED callbacks and the session shutdown inside disconnect and close: only their effect on the table and on connection reports is modelled.
- The service library (src/service), WebRTC beyond the reference-counting headers, and the message calls that only return a status.
- Regular expressions, printing, argument parsing and the unused outlier options of the latency tool: the model starts from parsed lines; `tx_rtp_by_trace` and `rx_rtp_by_trace` are filled but never read there and are not modelled.
- The percentile fractions 0.50, 0.95 and 0.99 are exact rationals and the mean an exact real.
- std::sort and list.sort are functions with their contract; which of two equal candidates comes first is not part of any statement.
