/** What holds of every run of the push demo: start-up, any number of loop iterations, shutdown. */
module PushRuns {
  import opened Options
  import opened PushTrace
  import opened PushModel
  import opened PushSafety

  // ---- One loop iteration ----

  /** Asks for the stream to be restarted. */
  predicate Raises(cb: Callback) {
    IsLoss(cb) || (cb.OnStream? && (cb.state.StreamFailed? || cb.state.StreamClosed?))
  }

  /** The two callback windows inside a tick bring no bad news. */
  predicate Quiet(i: TickInput) {
    && !LossLast(i.launch.onCreate + i.launch.onStart)
    && forall k :: 0 <= k < |i.gap| ==> !Raises(i.gap[k])
  }

  lemma QuietHandling(d: Demo, cb: Callback)
    requires !Raises(cb)
    ensures Handle(d, cb).wantStream == d.wantStream
  {
    hide Watch, Lawful, Exclusive, Emit;
    match cb
    case OnConnect(s) => assert HandleConnectState(d, s).wantStream == d.wantStream;
    case OnStream(s) => assert HandleStreamState(d, s).wantStream == d.wantStream;
  }

  lemma {:induction false} QuietDelivery(d: Demo, cbs: seq<Callback>)
    requires forall k :: 0 <= k < |cbs| ==> !Raises(cbs[k])
    ensures Deliver(d, cbs).wantStream == d.wantStream
    decreases |cbs|
  {
    hide Handle, Raises;
    if cbs != [] {
      QuietHandling(d, cbs[0]);
      QuietDelivery(Handle(d, cbs[0]), cbs[1..]);
    }
  }

  lemma QuietTickNeverCollides(d: Demo, now: int, i: TickInput)
    requires Stable(d) && Timely(d, now) && Guarded(d) && Quiet(i)
    ensures !Collides(d, now, i)
  {
    hide Watch, Lawful, Exclusive, Emit, Opening, Deliver;
    OpeningKeeps(d, now);
    if !MustTearDown(Opening(d, now)) {
      SurvivorsInTick(d, now, i);
      QuietDelivery(Opening(d, now), i.gap);
    }
  }

  /** A tick stays guarded exactly unless it brings a stream up over a loss. */
  lemma TickGuards(d: Demo, now: int, i: TickInput)
    requires Stable(d) && Timely(d, now) && Guarded(d)
    ensures var d' := ServiceTick(d, now, i);
            Guarded(d') <==> !(d.stream.None? && d'.stream.Some? && LossLast(i.launch.onCreate + i.launch.onStart))
  {
    hide Watch, Lawful, Exclusive, Emit, Opening, Deliver, MaybeStart, MaybeReconnect, TeardownStream, LossLast;
    OpeningKeeps(d, now);
    var o := Opening(d, now);
    if MustTearDown(o) {
      TeardownKeeps(o, i);
    } else {
      SurvivorsInTick(d, now, i);
      var g := Deliver(o, i.gap);
      MaybeReconnectKeeps(g, now, i.reconnect);
      MaybeStartGuards(MaybeReconnect(g, now, i.reconnect), now, i);
    }
    assert ServiceTick(d, now, i) == Emit(TickBody(o, now, i), TickEnd) by { TickUnfolds(d, now, i); }
  }

  lemma TickUnfolds(d: Demo, now: int, i: TickInput)
    ensures ServiceTick(d, now, i) == Emit(TickBody(Opening(d, now), now, i), TickEnd)
  {
  }

  lemma PrintStatsKeeps(d: Demo, now: int)
    requires Stable(d)
    ensures var d' := PrintStats(d, now);
            && Stable(d') && d' == d.(lastStats := d'.lastStats, trace := d'.trace)
            && (Exclusive(d'.trace) <==> Exclusive(d.trace))
  {
    hide Watch, Lawful, Exclusive, Emit;
  }

  /** The state in which an iteration calls ServiceTick, and the instant it passes. */
  ghost function BeforeTick(d: Demo, i: LoopInput): Demo {
    var d1 := Wait(Deliver(d, i.before), i.delay);
    Deliver(PollWait(d1, d1.clock, d1.stream.Some?, i.poll), i.between)
  }

  ghost function TickTime(d: Demo, i: LoopInput): int { Wait(Deliver(d, i.before), i.delay).clock }

  lemma BeforeTickKeeps(d: Demo, i: LoopInput)
    requires Stable(d)
    ensures var b := BeforeTick(d, i);
            && Stable(b) && Timely(b, TickTime(d, i)) && (Guarded(d) ==> Guarded(b))
            && b.stream == d.stream && (Exclusive(b.trace) <==> Exclusive(d.trace))
            && Sticky(d, b) && d.clock <= TickTime(d, i)
  {
    hide Watch, Lawful, Exclusive, Emit, Deliver, PollWait;
    DeliverKeeps(d, i.before, PhaseOf(d));
    WaitKeeps(Deliver(d, i.before), i.delay);
    var d1 := Wait(Deliver(d, i.before), i.delay);
    PollWaitKeeps(d1, d1.clock, d1.stream.Some?, i.poll);
    var d2 := PollWait(d1, d1.clock, d1.stream.Some?, i.poll);
    DeliverKeeps(d2, i.between, PhaseOf(d2));
  }

  lemma IterateUnfolds(d: Demo, i: LoopInput)
    ensures var t := ServiceTick(BeforeTick(d, i), TickTime(d, i), i.tick);
            var p := PrintStats(t, TickTime(d, i));
            Iterate(d, i) == p.(stop := p.stop || i.interrupt)
  {
    hide ServiceTick, PrintStats;
  }

  /** The tick of this iteration calls the signalling API with a stream in hand. */
  ghost predicate IterationCollides(d: Demo, i: LoopInput) {
    Collides(BeforeTick(d, i), TickTime(d, i), i.tick)
  }

  lemma IterateKeeps(d: Demo, i: LoopInput)
    requires Stable(d)
    ensures var d' := Iterate(d, i);
            && Stable(d') && (d'.stream.Some? ==> d'.cam.present) && Sticky(d, d')
            && (Exclusive(d'.trace) <==> Exclusive(d.trace) && !IterationCollides(d, i))
  {
    hide Watch, Lawful, Exclusive, Emit, ServiceTick, PrintStats, BeforeTick, Quiet, Collides, Stable, Opening;
    IterateUnfolds(d, i);
    BeforeTickKeeps(d, i);
    var b, now := BeforeTick(d, i), TickTime(d, i);
    TickKeeps(b, now, i.tick);
    PrintStatsKeeps(ServiceTick(b, now, i.tick), now);
    InterruptKeeps(PrintStats(ServiceTick(b, now, i.tick), now), i.interrupt);
  }

  /** From a guarded state a quiet iteration neither collides nor leaves the guarded states. */
  lemma QuietIterationKeeps(d: Demo, i: LoopInput)
    requires Stable(d) && Guarded(d) && Quiet(i.tick)
    ensures Guarded(Iterate(d, i)) && !IterationCollides(d, i)
  {
    hide Watch, Lawful, Exclusive, Emit, ServiceTick, PrintStats, BeforeTick, Quiet, Collides, Stable, Opening;
    IterateUnfolds(d, i);
    BeforeTickKeeps(d, i);
    var b, now := BeforeTick(d, i), TickTime(d, i);
    QuietTickNeverCollides(b, now, i.tick);
    TickKeeps(b, now, i.tick);
    TickGuards(b, now, i.tick);
    assert !LossLast(i.tick.launch.onCreate + i.tick.launch.onStart) by { QuietLaunch(i.tick); }
    PrintStatsKeeps(ServiceTick(b, now, i.tick), now);
  }

  lemma InterruptKeeps(d: Demo, interrupt: bool)
    requires Stable(d)
    ensures Stable(d.(stop := d.stop || interrupt))
  {
    hide Watch, Lawful, Exclusive;
  }

  lemma QuietLaunch(i: TickInput)
    requires Quiet(i)
    ensures !LossLast(i.launch.onCreate + i.launch.onStart)
  {
  }

  lemma {:induction false} LoopKeeps(d: Demo, inputs: seq<LoopInput>)
    requires Stable(d)
    ensures var d' := Loop(d, inputs);
            && Stable(d') && Sticky(d, d')
            && (inputs != [] && !d.stop && d'.stream.Some? ==> d'.cam.present)
    decreases |inputs|
  {
    hide Watch, Lawful, Exclusive, Stable, Quiet, Iterate, IterationCollides;
    if inputs != [] && !d.stop {
      IterateKeeps(d, inputs[0]);
      LoopKeeps(Iterate(d, inputs[0]), inputs[1..]);
    }
  }

  /** The k-th iteration of the loop takes place and its tick collides. */
  ghost predicate CollidesAt(d: Demo, inputs: seq<LoopInput>, k: nat) {
    && k < |inputs|
    && var before := Loop(d, inputs[..k]);
       !before.stop && IterationCollides(before, inputs[k])
  }

  lemma FirstCollision(d: Demo, inputs: seq<LoopInput>)
    ensures CollidesAt(d, inputs, 0) <==> inputs != [] && !d.stop && IterationCollides(d, inputs[0])
  {
    hide Iterate, IterationCollides;
    assert inputs != [] ==> inputs[..0] == [];
  }

  lemma LaterCollision(d: Demo, inputs: seq<LoopInput>, k: nat)
    requires 0 < k
    ensures CollidesAt(d, inputs, k) <==>
            inputs != [] && !d.stop && CollidesAt(Iterate(d, inputs[0]), inputs[1..], k - 1)
  {
    hide Iterate, IterationCollides;
    if k < |inputs| {
      assert inputs[..k][0] == inputs[0] && inputs[..k][1..] == inputs[1..][..k - 1];
    }
  }

  /** The loop keeps signalling exclusive exactly when no tick of it collides. */
  lemma {:induction false} LoopExclusive(d: Demo, inputs: seq<LoopInput>)
    requires Stable(d)
    ensures Exclusive(Loop(d, inputs).trace) <==> Exclusive(d.trace) && forall k: nat :: !CollidesAt(d, inputs, k)
    decreases |inputs|
  {
    hide Watch, Lawful, Exclusive, Stable, Iterate, IterationCollides, CollidesAt;
    FirstCollision(d, inputs);
    forall k: nat | 0 < k
      ensures CollidesAt(d, inputs, k) <==>
              inputs != [] && !d.stop && CollidesAt(Iterate(d, inputs[0]), inputs[1..], k - 1)
    {
      LaterCollision(d, inputs, k);
    }
    if inputs != [] && !d.stop {
      IterateKeeps(d, inputs[0]);
      var next := Iterate(d, inputs[0]);
      LoopExclusive(next, inputs[1..]);
      forall k: nat ensures CollidesAt(next, inputs[1..], k) ==> CollidesAt(d, inputs, k + 1) {
        LaterCollision(d, inputs, k + 1);
      }
    }
  }

  /** Quiet ticks from a guarded state never collide, however many there are. */
  lemma {:induction false} QuietLoopKeeps(d: Demo, inputs: seq<LoopInput>)
    requires Stable(d) && Guarded(d) && forall i :: i in inputs ==> Quiet(i.tick)
    ensures Guarded(Loop(d, inputs)) && forall k: nat :: !CollidesAt(d, inputs, k)
    decreases |inputs|
  {
    hide Watch, Lawful, Exclusive, Stable, Quiet, Iterate, IterationCollides, CollidesAt;
    FirstCollision(d, inputs);
    if inputs != [] && !d.stop {
      assert inputs[0] in inputs;
      IterateKeeps(d, inputs[0]);
      QuietIterationKeeps(d, inputs[0]);
      QuietLoopKeeps(Iterate(d, inputs[0]), inputs[1..]);
    }
    forall k: nat ensures !CollidesAt(d, inputs, k) {
      if 0 < k {
        LaterCollision(d, inputs, k);
      }
    }
  }

  // ---- Start-up and shutdown ----

  lemma NewDemoKeeps(camera: string, maxFails: nat, clock: int)
    requires 0 < clock
    ensures var d := NewDemo(camera, maxFails, clock);
            && Stable(d) && Guarded(d) && Exclusive(d.trace)
            && d.trace == [Configured(camera)] && d.stream.None? && d.nextStream == 0 && d.maxFails == maxFails
  {
  }

  /** Before the main loop there is no tick, no stream and no backoff. */
  ghost predicate Booting(d: Demo) {
    Stable(d) && d.stream.None? && d.nextStream == 0 && Watch(d.trace).tick.None? && Exclusive(d.trace)
  }

  lemma SyncKeeps(d: Demo, identity: string, ready: bool, delay: nat)
    requires Booting(d)
    ensures var d' := SyncInitialPresence(d, identity, ready, delay); Booting(d') && Sticky(d, d')
  {
    hide Watch, Lawful, Exclusive, Emit;
  }

  lemma StartMonitorKeeps(d: Demo, opens: bool, delay: nat, drained: seq<UdevEvent>)
    requires Booting(d)
    ensures Booting(StartMonitor(d, opens, delay, drained)) && Sticky(d, StartMonitor(d, opens, delay, drained))
  {
    hide Watch, Lawful, Exclusive, Emit, Drain;
    WaitKeeps(d, delay);
    var w := Wait(d, delay);
    StampKeeps(w, w.clock, w.clock, opens, w.lastStats);
    DrainKeeps(w.(cam := w.cam.(useUdev := opens, lastProbe := w.clock, lastReconcile := w.clock)), drained);
  }

  lemma BootCameraKeeps(d: Demo, b: Boot)
    requires Booting(d)
    ensures Booting(BootCamera(d, b)) && !BootCamera(d, b).cam.restart && Sticky(d, BootCamera(d, b))
  {
    hide Watch, Lawful, Exclusive, Emit, SyncInitialPresence, StartMonitor, PollWait, Deliver, Notice;
    SyncKeeps(d, b.identity, b.ready, b.syncDelay);
    var d1 := SyncInitialPresence(d, b.identity, b.ready, b.syncDelay);
    StartMonitorKeeps(d1, b.udevOpens, b.startDelay, b.drained);
    var d2 := StartMonitor(d1, b.udevOpens, b.startDelay, b.drained);
    WaitKeeps(d2, b.pollDelay);
    var d3 := Wait(d2, b.pollDelay);
    PollWaitKeeps(d3, d3.clock, false, b.poll);
    NoticeKeeps(PollWait(d3, d3.clock, false, b.poll));
    DeliverKeeps(Notice(PollWait(d3, d3.clock, false, b.poll)), b.between, NoHandle);
  }

  lemma BootUpKeeps(d: Demo, b: Boot)
    requires Booting(d)
    ensures var (d', ok) := BootUp(d, b);
            && Stable(d') && Exclusive(d'.trace) && Sticky(d, d')
            && (Guarded(d') <==> !(d'.stream.Some? && LossLast(b.launch.onCreate + b.launch.onStart)))
            && (!ok ==> d'.stream.None?)
  {
    hide Watch, Lawful, Exclusive, Emit, BootCamera, TryStartStream, LossLast, AttemptSignalingConnect;
    AttemptKeeps(d, b.connect, NoHandle);
    var (d1, ok) := AttemptSignalingConnect(d, b.connect);
    if ok {
      BootCameraKeeps(d1, b);
      var d2 := BootCamera(d1, b);
      TryStartKeeps(d2, b.launch);
      StartWindow(d2, b.launch);
      var d3 := TryStartStream(d2, b.launch).0;
      WaitKeeps(d3, b.loopDelay);
      var d4 := Wait(d3, b.loopDelay);
      StampKeeps(d4, d4.cam.lastProbe, d4.cam.lastReconcile, d4.cam.useUdev, d4.clock);
    }
  }

  // ---- Whole runs ----

  ghost predicate QuietRun(b: Boot, inputs: seq<LoopInput>) {
    && !LossLast(b.launch.onCreate + b.launch.onStart)
    && forall i :: i in inputs ==> Quiet(i.tick)
  }

  lemma RunKeeps(camera: string, maxFails: nat, clock: int, b: Boot, inputs: seq<LoopInput>)
    requires 0 < clock
    ensures var d := Run(camera, maxFails, clock, b, inputs);
            Stable(d) && d.maxFails == maxFails
  {
    hide Watch, Lawful, Exclusive, Stable, BootUp, Loop, NewDemo;
    NewDemoKeeps(camera, maxFails, clock);
    var d := NewDemo(camera, maxFails, clock);
    NewDemoBoots(camera, maxFails, clock);
    BootUpKeeps(d, b);
    if BootUp(d, b).1 {
      LoopKeeps(BootUp(d, b).0, inputs);
    }
  }

  /** The run reaches its loop, and the tick of iteration k collides. */
  ghost predicate RunCollidesAt(camera: string, maxFails: nat, clock: int, b: Boot, inputs: seq<LoopInput>, k: nat) {
    var (d, ok) := BootUp(NewDemo(camera, maxFails, clock), b);
    ok && CollidesAt(d, inputs, k)
  }

  lemma RunExclusive(camera: string, maxFails: nat, clock: int, b: Boot, inputs: seq<LoopInput>)
    requires 0 < clock
    ensures Exclusive(Run(camera, maxFails, clock, b, inputs).trace) <==>
            forall k: nat :: !RunCollidesAt(camera, maxFails, clock, b, inputs, k)
  {
    hide Watch, Lawful, Exclusive, Stable, BootUp, Loop, NewDemo, CollidesAt;
    NewDemoKeeps(camera, maxFails, clock);
    var d := NewDemo(camera, maxFails, clock);
    NewDemoBoots(camera, maxFails, clock);
    BootUpKeeps(d, b);
    if BootUp(d, b).1 {
      LoopExclusive(BootUp(d, b).0, inputs);
      forall k: nat
        ensures RunCollidesAt(camera, maxFails, clock, b, inputs, k) <==> CollidesAt(BootUp(d, b).0, inputs, k)
      {
      }
    }
  }

  lemma QuietRunKeeps(camera: string, maxFails: nat, clock: int, b: Boot, inputs: seq<LoopInput>)
    requires 0 < clock && QuietRun(b, inputs)
    ensures Guarded(Run(camera, maxFails, clock, b, inputs))
    ensures forall k: nat :: !RunCollidesAt(camera, maxFails, clock, b, inputs, k)
  {
    hide Watch, Lawful, Exclusive, Stable, BootUp, Loop, NewDemo, CollidesAt, Quiet, LossLast;
    NewDemoKeeps(camera, maxFails, clock);
    var d := NewDemo(camera, maxFails, clock);
    NewDemoBoots(camera, maxFails, clock);
    BootUpKeeps(d, b);
    if BootUp(d, b).1 {
      QuietLoopKeeps(BootUp(d, b).0, inputs);
    }
  }

  lemma NewDemoBoots(camera: string, maxFails: nat, clock: int)
    requires 0 < clock
    ensures Booting(NewDemo(camera, maxFails, clock))
  {
    NewDemoKeeps(camera, maxFails, clock);
    assert Front([Configured(camera)]) == [];
  }

  /** Every history of every run obeys the laws of PushTrace. */
  lemma RunIsLawful(camera: string, maxFails: nat, clock: int, b: Boot, inputs: seq<LoopInput>)
    requires 0 < clock
    ensures Lawful(Run(camera, maxFails, clock, b, inputs).trace)
  {
    hide Watch, Lawful, Run;
    RunKeeps(camera, maxFails, clock, b, inputs);
  }

  /** Whenever svc_connect or svc_disconnect is called, every handle created so far has been destroyed. */
  ghost predicate NeverHeldWhileSignalling(t: seq<Event>) {
    forall k :: 0 <= k < |t| && (t[k].Connect? || t[k].Disconnect?) ==> Creates(t[..k]) == Destroys(t[..k])
  }

  lemma {:induction false} ExclusiveMeans(t: seq<Event>)
    requires Lawful(t)
    ensures Exclusive(t) <==> NeverHeldWhileSignalling(t)
    decreases |t|
  {
    hide Watch;
    if t != [] {
      var n := |t| - 1;
      ExclusiveMeans(Front(t));
      HandlesConserved(Front(t));
      assert forall k :: 0 <= k < n ==> Front(t)[..k] == t[..k] && Front(t)[k] == t[k];
      assert t[..n] == Front(t);
    }
  }

  /** A run touches signalling with a handle in existence exactly when one of its ticks collides. */
  lemma NoSignallingWhileHeld(camera: string, maxFails: nat, clock: int, b: Boot, inputs: seq<LoopInput>)
    requires 0 < clock
    ensures NeverHeldWhileSignalling(Run(camera, maxFails, clock, b, inputs).trace) <==>
            forall k: nat :: !RunCollidesAt(camera, maxFails, clock, b, inputs, k)
  {
    hide Lawful, Exclusive, NeverHeldWhileSignalling, RunCollidesAt, Run;
    RunIsLawful(camera, maxFails, clock, b, inputs);
    RunExclusive(camera, maxFails, clock, b, inputs);
    ExclusiveMeans(Run(camera, maxFails, clock, b, inputs).trace);
  }

  /** At some moment n failures in a row, of one kind, had just happened. */
  ghost predicate ReachedRun(t: seq<Event>, n: nat) {
    exists k :: 0 <= k <= |t| && (n <= Watch(t[..k]).startFails || n <= Watch(t[..k]).roundFails)
  }

  /** The exit flag is set exactly when the threshold N is positive and some run of N failures happened. */
  lemma ExitFlagMeansFailures(camera: string, maxFails: nat, clock: int, b: Boot, inputs: seq<LoopInput>)
    requires 0 < clock
    ensures var d := Run(camera, maxFails, clock, b, inputs);
            && (d.exitDue <==> maxFails > 0 && ReachedRun(d.trace, maxFails))
            && (d.exitDue ==> d.stop)
            && d.streamFails == Watch(d.trace).startFails && d.connFails == Watch(d.trace).roundFails
  {
    hide Watch, Lawful, Exclusive, Run, CameraAgrees;
    RunKeeps(camera, maxFails, clock, b, inputs);
    var d := Run(camera, maxFails, clock, b, inputs);
    var k := PeakIsLongestRun(d.trace);
    if d.exitDue {
      assert 0 <= k <= |d.trace| &&
             (maxFails <= Watch(d.trace[..k]).startFails || maxFails <= Watch(d.trace[..k]).roundFails);
    }
  }

  /** However a run ends, shutting it down destroys every handle it created. */
  lemma ShutdownDestroysAll(camera: string, maxFails: nat, clock: int, b: Boot, inputs: seq<LoopInput>, e: Exit)
    requires 0 < clock
    ensures var d := Run(camera, maxFails, clock, b, inputs);
            var d' := Shutdown(d, e);
            && Lawful(d'.trace) && Creates(d'.trace) == Destroys(d'.trace) && d'.stream.None?
            && (Exclusive(d.trace) <==> Exclusive(d'.trace)) && (d.exitDue <==> d'.exitDue)
  {
    hide Watch, Lawful, Exclusive, Run, Emit, StopAndDestroy, Deliver, Creates, Destroys;
    RunKeeps(camera, maxFails, clock, b, inputs);
    ShutdownKeeps(Run(camera, maxFails, clock, b, inputs), e);
    HandlesConserved(Shutdown(Run(camera, maxFails, clock, b, inputs), e).trace);
  }

  /** r's history is d's and after it connection reports only. */
  predicate OnlyReports(d: Demo, r: Demo) {
    d.trace <= r.trace && forall j :: |d.trace| <= j < |r.trace| ==> r.trace[j].ConnReport?
  }

  lemma EmitAppends(d: Demo, e: Event)
    ensures Emit(d, e).trace == d.trace + [e]
  {
  }

  lemma HandleOnlyReports(d: Demo, cb: Callback)
    ensures OnlyReports(d, Handle(d, cb))
  {
    hide Emit, HandleStreamState, StoreConnState;
    match cb
    case OnConnect(s) =>
      EmitAppends(d, ConnReport(s));
      StoringIsSilent(Emit(d, ConnReport(s)), s);
    case OnStream(s) => StreamReportIsSilent(d, s);
  }

  lemma StoringIsSilent(d: Demo, s: ConnState)
    ensures StoreConnState(d, s).trace == d.trace
  {
  }

  lemma StreamReportIsSilent(d: Demo, s: StreamState)
    ensures HandleStreamState(d, s).trace == d.trace
  {
  }

  lemma {:induction false} DeliverOnlyReports(d: Demo, cbs: seq<Callback>)
    ensures OnlyReports(d, Deliver(d, cbs))
    decreases |cbs|
  {
    hide Handle;
    if cbs != [] {
      HandleOnlyReports(d, cbs[0]);
      DeliverOnlyReports(Handle(d, cbs[0]), cbs[1..]);
    }
  }

  /** Stopping the stream calls no signalling. */
  lemma StopForExitSilent(d: Demo, e: Exit)
    ensures var r := StopStreamForExit(d, e);
            && d.trace <= r.trace
            && forall j :: |d.trace| <= j < |r.trace| ==> !r.trace[j].Connect? && !r.trace[j].Disconnect?
  {
    hide Emit, Deliver;
    if d.stream.Some? {
      var h := d.stream.value;
      EmitAppends(d, Stop(h));
      DeliverOnlyReports(Emit(d, Stop(h)), e.onStop);
      var d1 := Deliver(Emit(d, Stop(h)), e.onStop);
      EmitAppends(d1, Destroy(h));
      DeliverOnlyReports(Emit(d1, Destroy(h)), e.onDestroy);
    }
  }

  /** The shutdown of any run disconnects once, calls no other signalling, and by then has destroyed every handle. */
  lemma ShutdownDisconnectsLast(camera: string, maxFails: nat, clock: int, b: Boot, inputs: seq<LoopInput>, e: Exit)
    returns (k: nat)
    requires 0 < clock
    ensures var d := Run(camera, maxFails, clock, b, inputs);
            var t := Shutdown(d, e).trace;
            && |d.trace| <= k < |t| && d.trace <= t && t[k].Disconnect? && Creates(t[..k]) == Destroys(t[..k])
            && forall j :: |d.trace| <= j < |t| && j != k ==> !t[j].Connect? && !t[j].Disconnect?
  {
    hide Watch, Lawful, Exclusive, Run, Emit, StopStreamForExit, Deliver, Creates, Destroys, Stable;
    RunKeeps(camera, maxFails, clock, b, inputs);
    var d := Run(camera, maxFails, clock, b, inputs);
    ShuttingDown(d);
    var d0 := d.(shuttingDown := true, cam := d.cam.(useUdev := false));
    StopForExitSilent(d0, e);
    StopForExitKeeps(d0, e);
    var d1 := StopStreamForExit(d0, e);
    k := |d1.trace|;
    EmitAppends(d1, Disconnect);
    DeliverOnlyReports(Emit(d1, Disconnect), e.onDisconnect);
    var t := Shutdown(d, e).trace;
    assert t[..k] == d1.trace;
    HandlesConserved(d1.trace);
  }

  lemma ShuttingDown(d: Demo)
    requires Stable(d)
    ensures Stable(d.(shuttingDown := true, cam := d.cam.(useUdev := false)))
  {
    hide Watch, Lawful, Exclusive;
  }

  lemma StopForExitKeeps(d: Demo, e: Exit)
    requires Stable(d)
    ensures var d' := StopStreamForExit(d, e);
            && Inv(d', NoHandle) && d'.stream.None? && d'.exitDue == d.exitDue
            && (Exclusive(d'.trace) <==> Exclusive(d.trace))
  {
    hide Watch, Lawful, Exclusive, Emit, StopAndDestroy, Deliver;
    if d.stream.Some? {
      StopAndDestroyKeeps(d, d.stream.value, e.onStop, e.onDestroy);
    }
  }

  lemma DisconnectKeeps(d: Demo)
    requires Inv(d, NoHandle)
    ensures var d' := Emit(d, Disconnect); Inv(d', NoHandle) && (Exclusive(d'.trace) <==> Exclusive(d.trace))
  {
    hide Watch, Lawful, Exclusive, Emit;
  }

  lemma ShutdownKeeps(d: Demo, e: Exit)
    requires Stable(d)
    ensures var d' := Shutdown(d, e);
            && Lawful(d'.trace) && Watch(d'.trace).phase.NoHandle? && d'.stream.None?
            && (Exclusive(d.trace) <==> Exclusive(d'.trace)) && (d.exitDue <==> d'.exitDue)
  {
    hide Watch, Lawful, Exclusive, Emit, StopStreamForExit, Deliver, Stable, CameraAgrees, SessionAgrees, Thresholds;
    var d0 := d.(shuttingDown := true, cam := d.cam.(useUdev := false));
    ShuttingDown(d);
    StopForExitKeeps(d0, e);
    var d1 := StopStreamForExit(d0, e);
    DisconnectKeeps(d1);
    DeliverKeeps(Emit(d1, Disconnect), e.onDisconnect, NoHandle);
  }
}
