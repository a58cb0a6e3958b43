/**
 The push demo in its own form: the session and the camera monitor are objects whose methods update
 their fields. Every method is proved equal to the corresponding function of PushModel, so what
 PushSafety and PushRuns prove about those functions holds of these objects.
 */
module PushDemo {
  import opened Options
  import opened PushTrace
  import opened PushModel

  /** What both objects share: the steady clock, the stop flag, the SDK's handle supply, main's last_stats. */
  class Platform {
    var clock: int
    var stop: bool
    var handles: nat
    var lastStats: int
    ghost var trace: seq<Event>

    constructor (clock: int)
      ensures this.clock == clock && !stop && handles == 0 && lastStats == 0 && trace == []
    {
      this.clock, stop, handles, lastStats, trace := clock, false, 0, 0, [];
    }

    method Now(delay: nat) returns (t: int)
      modifies `clock
      ensures t == clock == old(clock) + delay
    {
      clock := clock + delay;
      t := clock;
    }

    ghost method Record(e: Event)
      modifies `trace
      ensures trace == old(trace) + [e]
    {
      trace := trace + [e];
    }
  }

  class CameraHotplugMonitor {
    const platform: Platform
    var onPathChanged: PushDemoSession?
    var devPath: string
    var deviceIdentity: string
    var presentLast: bool
    var presentSince: int
    var restartRequested: bool
    var useUdev: bool
    var lastFallbackProbe: int
    var lastSafetyReconcile: int

    ghost function Camera(): Camera
      reads this
    {
      PushModel.Camera(devPath, deviceIdentity, presentLast, presentSince, restartRequested,
                       useUdev, lastFallbackProbe, lastSafetyReconcile)
    }

    /** The session whose monitor this is has registered its path callback. */
    ghost predicate Attached()
      reads this, onPathChanged
    {
      onPathChanged != null && onPathChanged.camera == this && onPathChanged.platform == platform
    }

    ghost function Demo(): Demo
      requires Attached()
      reads this, onPathChanged, platform
    {
      onPathChanged.View()
    }

    ghost method Note(e: Event)
      requires Attached()
      modifies platform`trace
      ensures Attached() && onPathChanged == old(onPathChanged)
      ensures Demo() == Emit(old(Demo()), e)
    {
      hide Watch, Lawful, Exclusive, Observe, Allowed;
      platform.Record(e);
    }

    constructor (path: string, platform: Platform)
      ensures this.platform == platform && onPathChanged == null
      ensures Camera() == PushModel.Camera(path, "", false, 0, false, false, 0, 0)
    {
      this.platform := platform;
      devPath, deviceIdentity, presentLast, presentSince := path, "", false, 0;
      restartRequested, useUdev, lastFallbackProbe, lastSafetyReconcile := false, false, 0, 0;
      onPathChanged := null;
    }

    method SetOnDevPathChanged(session: PushDemoSession)
      modifies `onPathChanged
      ensures onPathChanged == session
    {
      onPathChanged := session;
    }

    method ApplyPresence(present: bool, now: int)
      requires Attached()
      modifies this, platform
      ensures Attached() && onPathChanged == old(onPathChanged)
      ensures Demo() == PushModel.ApplyPresence(old(Demo()), present, now)
    {
      hide Watch, Lawful, Exclusive, Observe, Allowed, Emit;
      if present == presentLast { return; }
      Note(Presence(present, now));
      presentLast := present;
      if present {
        presentSince := now;
      } else {
        presentSince := 0;
      }
      restartRequested := true;
    }

    method AdoptDevPath(newPath: string, ghost identity: string, now: int)
      requires Attached()
      modifies this, onPathChanged, platform
      ensures Attached() && onPathChanged == old(onPathChanged)
      ensures Demo() == PushModel.AdoptDevPath(old(Demo()), newPath, identity, now)
    {
      hide Watch, Lawful, Exclusive, Observe, Allowed, Emit;
      if newPath == "" || newPath == devPath { return; }
      Note(Moved(newPath, identity, now));
      devPath := newPath;
      if onPathChanged != null {
        onPathChanged.OnDevPathChanged(newPath);
      }
      presentLast := true;
      presentSince := now;
      restartRequested := true;
    }

    method HandleUdevDevice(e: UdevEvent)
      requires Attached()
      modifies this, onPathChanged, platform
      ensures Attached() && onPathChanged == old(onPathChanged)
      ensures Demo() == PushModel.HandleUdevDevice(old(Demo()), e)
    {
      hide Watch, Lawful, Exclusive, Observe, Allowed, Emit, PushModel.ApplyPresence, PushModel.AdoptDevPath;
      var now := platform.Now(e.delay);
      if e.action.None? { return; }
      if e.devnode.None? || e.subsystem != Some("video4linux") { return; }
      if !e.capture { return; }
      if e.action.value == "remove" {
        if devPath == e.devnode.value {
          ApplyPresence(false, now);
        }
        return;
      }
      if e.action.value != "add" { return; }
      if devPath == e.devnode.value {
        ApplyPresence(true, now);
        return;
      }
      if deviceIdentity == "" { return; }
      if e.identity == "" || e.identity != deviceIdentity { return; }
      if !e.ready { return; }
      AdoptDevPath(e.devnode.value, e.identity, now);
    }

    method Drain(events: seq<UdevEvent>)
      requires Attached()
      modifies this, onPathChanged, platform
      ensures Attached() && onPathChanged == old(onPathChanged)
      ensures Demo() == PushModel.Drain(old(Demo()), events)
    {
      hide Watch, Lawful, Exclusive, Observe, Allowed, Emit, PushModel.HandleUdevDevice;
      var i := 0;
      while i < |events|
        invariant 0 <= i <= |events| && Attached() && onPathChanged == old(onPathChanged)
        invariant PushModel.Drain(Demo(), events[i..]) == PushModel.Drain(old(Demo()), events)
      {
        assert events[i..][1..] == events[i + 1..];
        HandleUdevDevice(events[i]);
        i := i + 1;
      }
    }

    method SyncInitialPresence(identity: string, ready: bool, delay: nat)
      requires Attached()
      modifies this, platform
      ensures Attached() && onPathChanged == old(onPathChanged)
      ensures Demo() == PushModel.SyncInitialPresence(old(Demo()), identity, ready, delay)
    {
      hide Watch, Lawful, Exclusive, Observe, Allowed, Emit;
      var now := platform.Now(delay);
      var present := devPath != "" && ready;
      Note(Synced(identity, present, now));
      Remember(identity, present, now);
    }

    method Remember(identity: string, present: bool, now: int)
      modifies `deviceIdentity, `presentLast, `presentSince, `restartRequested
      ensures deviceIdentity == identity && presentLast == present && presentSince == (if present then now else 0)
      ensures restartRequested == (old(restartRequested) || !present)
    {
      deviceIdentity := identity;
      presentLast := present;
      presentSince := if present then now else 0;
      if !present {
        restartRequested := true;
      }
    }

    method Start(opens: bool, delay: nat, drained: seq<UdevEvent>)
      requires Attached()
      modifies this, onPathChanged, platform
      ensures Attached() && onPathChanged == old(onPathChanged)
      ensures Demo() == StartMonitor(old(Demo()), opens, delay, drained)
    {
      hide Watch, Lawful, Exclusive, Observe, Allowed, Emit, PushModel.Drain;
      useUdev := opens;
      var now := platform.Now(delay);
      lastFallbackProbe := now;
      lastSafetyReconcile := now;
      if useUdev {
        Drain(drained);
      }
    }

    method Stop()
      requires Attached()
      modifies this
      ensures Attached() && onPathChanged == old(onPathChanged)
      ensures Demo() == old(Demo()).(cam := old(Camera()).(useUdev := false))
    {
      useUdev := false;
    }

    method PollWait(now: int, streamActive: bool, p: Poll)
      requires Attached()
      modifies this, onPathChanged, platform
      ensures Attached() && onPathChanged == old(onPathChanged)
      ensures Demo() == PushModel.PollWait(old(Demo()), now, streamActive, p)
    {
      hide Watch, Lawful, Exclusive, Observe, Allowed, Emit, PushModel.PollUdev, PushModel.ApplyPresence, ToMs;
      if useUdev {
        PollUdev(now, streamActive, p);
      } else if ToMs(now - lastFallbackProbe) >= 2000 {
        lastFallbackProbe := now;
        ApplyPresence(devPath != "" && p.accessOk, now);
      }
    }

    method PollUdev(now: int, streamActive: bool, p: Poll)
      requires Attached()
      modifies this, onPathChanged, platform
      ensures Attached() && onPathChanged == old(onPathChanged)
      ensures Demo() == PushModel.PollUdev(old(Demo()), now, streamActive, p)
    {
      hide Watch, Lawful, Exclusive, Observe, Allowed, Emit, PushModel.Drain, PushModel.ApplyPresence, ToMs;
      if p.readable {
        Drain(p.events);
      }
      if ToMs(now - lastSafetyReconcile) >= 5000 {
        lastSafetyReconcile := now;
        if streamActive && presentLast && !(devPath != "" && p.accessOk) {
          ApplyPresence(false, now);
        }
      }
    }

    /** Const in the source; here it also records that the node was opened for a check. */
    method IsStableAndReady(now: int, openOk: bool) returns (ready: bool)
      requires Attached()
      modifies platform`trace
      ensures Attached() && onPathChanged == old(onPathChanged)
      ensures (Demo(), ready) == PushModel.IsStableAndReady(old(Demo()), now, openOk)
    {
      hide Watch, Lawful, Exclusive, Observe, Allowed, Emit, ToMs;
      if !presentLast { return false; }
      var since := presentSince;
      if since == 0 {
        since := now;
      }
      if ToMs(now - since) < 1500 { return false; }
      ready := devPath != "" && openOk;
      Note(ReadyCheck(devPath, ready));
    }

    method ClearRestartRequest()
      modifies `restartRequested
      ensures !restartRequested
    {
      restartRequested := false;
    }
  }

  class PushDemoSession {
    const platform: Platform
    const camera: CameraHotplugMonitor
    const maxFailuresExit: nat
    var source: string
    var connState: ConnState
    var streamActive: bool
    var wantStreamRestart: bool
    var wantConnectRestart: bool
    var shuttingDown: bool
    var stream: Option<nat>
    var nextStreamAttempt: int
    var nextConnectAttempt: int
    var consecutiveStreamFailures: nat
    var consecutiveConnectFailures: nat
    var exitDueToFailures: bool

    ghost function View(): Demo
      reads this, camera, platform
    {
      Demo(connState, streamActive, wantStreamRestart, wantConnectRestart, shuttingDown,
           stream, nextStreamAttempt, nextConnectAttempt,
           consecutiveStreamFailures, consecutiveConnectFailures, maxFailuresExit, exitDueToFailures,
           source, camera.Camera(),
           platform.clock, platform.stop, platform.handles, platform.lastStats, platform.trace)
    }

    ghost predicate Wired()
      reads this, camera
    {
      camera.platform == platform && camera.onPathChanged == this
    }

    constructor (cameraPath: string, maxFailures: nat, clock: int)
      ensures Wired() && fresh(platform) && fresh(camera)
      ensures View() == NewDemo(cameraPath, maxFailures, clock)
    {
      hide Watch, Lawful, Exclusive, Observe, Allowed;
      var p := new Platform(clock);
      platform := p;
      maxFailuresExit := maxFailures;
      source := cameraPath;
      connState, streamActive, wantStreamRestart, wantConnectRestart, shuttingDown := Idle, false, false, false, false;
      stream, nextStreamAttempt, nextConnectAttempt := None, 0, 0;
      consecutiveStreamFailures, consecutiveConnectFailures, exitDueToFailures := 0, 0, false;
      camera := new CameraHotplugMonitor(cameraPath, p);
      new;
      camera.SetOnDevPathChanged(this);
      platform.Record(Configured(cameraPath));
    }

    ghost method Note(e: Event)
      modifies platform`trace
      ensures View() == Emit(old(View()), e)
    {
      hide Watch, Lawful, Exclusive, Observe, Allowed;
      platform.Record(e);
    }

    method ReadClock(delay: nat) returns (now: int)
      modifies platform`clock
      ensures View() == Wait(old(View()), delay) && now == View().clock
    {
      now := platform.Now(delay);
    }

    method OnDevPathChanged(newPath: string)
      modifies `source, `wantStreamRestart
      ensures source == newPath && wantStreamRestart
    {
      source := newPath;
      wantStreamRestart := true;
    }

    method HandleConnectState(state: ConnState)
      modifies this, platform`trace
      ensures View() == PushModel.HandleConnectState(old(View()), state)
    {
      hide Watch, Lawful, Exclusive, Observe, Allowed, Emit, PushModel.StoreConnState;
      Note(ConnReport(state));
      StoreConnState(state);
    }

    method StoreConnState(state: ConnState)
      modifies this
      ensures View() == PushModel.StoreConnState(old(View()), state)
    {
      connState := state;
      if state == Connected {
        wantConnectRestart := false;
        consecutiveConnectFailures := 0;
      } else if state == Disconnected || state == Failed {
        wantConnectRestart := true;
        wantStreamRestart := true;
      }
    }

    method HandleStreamState(state: StreamState)
      modifies this
      ensures View() == PushModel.HandleStreamState(old(View()), state)
    {
      if !shuttingDown && (state == StreamFailed || (state == StreamClosed && streamActive)) {
        wantStreamRestart := true;
      }
      if state == StreamIdle || state == StreamClosed {
        streamActive := false;
      } else if state == StreamOpened {
        streamActive := true;
      }
    }

    /** The SDK makes these callbacks, in this order. */
    method Callbacks(cbs: seq<Callback>)
      modifies this, platform`trace
      ensures View() == Deliver(old(View()), cbs)
    {
      hide Watch, Lawful, Exclusive, Observe, Allowed, Emit, PushModel.HandleConnectState, PushModel.HandleStreamState;
      var i := 0;
      while i < |cbs|
        invariant 0 <= i <= |cbs|
        invariant Deliver(View(), cbs[i..]) == Deliver(old(View()), cbs)
      {
        assert cbs[i..][1..] == cbs[i + 1..];
        match cbs[i] {
          case OnConnect(s) => HandleConnectState(s);
          case OnStream(s) => HandleStreamState(s);
        }
        i := i + 1;
      }
    }

    method CheckFailureExitThreshold()
      modifies this, platform`stop
      ensures View() == PushModel.CheckFailureExitThreshold(old(View()))
    {
      if maxFailuresExit <= 0 { return; }
      var n := Max(consecutiveStreamFailures, consecutiveConnectFailures);
      if n < maxFailuresExit { return; }
      exitDueToFailures := true;
      platform.stop := true;
    }

    method NoteStreamStartFailure()
      modifies this, platform`stop
      ensures View() == PushModel.NoteStreamStartFailure(old(View()))
    {
      hide PushModel.CheckFailureExitThreshold;
      consecutiveStreamFailures := consecutiveStreamFailures + 1;
      CheckFailureExitThreshold();
    }

    method NoteConnectFailure()
      modifies this, platform`stop
      ensures View() == PushModel.NoteConnectFailure(old(View()))
    {
      hide PushModel.CheckFailureExitThreshold;
      consecutiveConnectFailures := consecutiveConnectFailures + 1;
      CheckFailureExitThreshold();
    }

    method AttemptSignalingConnect(a: Attempt) returns (ok: bool)
      modifies this, platform
      ensures (View(), ok) == PushModel.AttemptSignalingConnect(old(View()), a)
    {
      hide Watch, Lawful, Exclusive, Observe, Allowed, Emit, Deliver;
      Note(Connect);
      Callbacks(a.during);
      ok := a.rcOk && connState == Connected;
    }

    method TryReconnectSignaling(now: int, r: Reconnect) returns (ok: bool)
      modifies this, platform
      ensures (View(), ok) == PushModel.TryReconnectSignaling(old(View()), now, r)
    {
      hide Watch, Lawful, Exclusive, Observe, Allowed, Emit;
      hide PushModel.AttemptSignalingConnect, PushModel.RetryAfterDisconnect, PushModel.ConnectSucceeded;
      if connState == Connected {
        wantConnectRestart := false;
        return true;
      }
      if now < nextConnectAttempt { return false; }
      ok := AttemptSignalingConnect(r.first);
      if ok {
        ConnectSucceeded();
      } else {
        ok := RetryAfterDisconnect(now, r);
      }
    }

    method ConnectSucceeded()
      modifies this, platform`trace
      ensures View() == PushModel.ConnectSucceeded(old(View()))
    {
      hide Watch, Lawful, Exclusive, Observe, Allowed, Emit;
      Note(Reconnected);
      consecutiveConnectFailures := 0;
      wantConnectRestart := false;
    }

    /** The second half of a round: disconnect, try again, and count the round as failed if that fails too. */
    method RetryAfterDisconnect(now: int, r: Reconnect) returns (ok: bool)
      modifies this, platform
      ensures (View(), ok) == PushModel.RetryAfterDisconnect(old(View()), now, r)
    {
      hide Watch, Lawful, Exclusive, Observe, Allowed, Emit, Deliver;
      hide PushModel.AttemptSignalingConnect, PushModel.ConnectSucceeded, PushModel.RoundFails;
      Note(Disconnect);
      Callbacks(r.onDisconnect);
      connState := Idle;
      assert View() == ResetConnection(old(View()), r.onDisconnect);
      ok := AttemptSignalingConnect(r.second);
      if ok {
        ConnectSucceeded();
      } else {
        RoundFails(now);
      }
    }

    method RoundFails(now: int)
      modifies this, platform
      ensures View() == PushModel.RoundFails(old(View()), now)
    {
      hide Watch, Lawful, Exclusive, Observe, Allowed, Emit, PushModel.NoteConnectFailure;
      Note(RoundFailed(now));
      NoteConnectFailure();
      nextConnectAttempt := now + CONNECT_BACKOFF;
    }

    method StopAndDestroy(h: nat, onStop: seq<Callback>, onDestroy: seq<Callback>)
      modifies this, platform`trace
      ensures View() == PushModel.StopAndDestroy(old(View()), h, onStop, onDestroy)
    {
      hide Watch, Lawful, Exclusive, Observe, Allowed, Emit, Deliver;
      Note(Event.Stop(h));
      Callbacks(onStop);
      Note(Destroy(h));
      Callbacks(onDestroy);
    }

    method BackOff(delay: nat, ghost tornDown: bool)
      modifies this, platform
      ensures View() == PushModel.BackOff(old(View()), delay, tornDown)
    {
      hide Watch, Lawful, Exclusive, Observe, Allowed, Emit;
      var now := ReadClock(delay);
      Note(if tornDown then Teardown(now) else StartFailed(now));
      nextStreamAttempt := now + STREAM_BACKOFF;
    }

    method TeardownStream(i: TickInput)
      modifies this, platform
      ensures View() == PushModel.TeardownStream(old(View()), i)
    {
      hide Watch, Lawful, Exclusive, Observe, Allowed, Emit, PushModel.StopAndDestroy, PushModel.BackOff;
      if stream.None? { return; }
      var h := stream.value;
      stream := None;
      streamActive := false;
      ghost var d0 := View();
      assert d0 == old(View()).(stream := None, active := false);
      StopAndDestroy(h, i.onStop, i.onDestroy);
      ghost var d1 := View();
      assert d1 == PushModel.StopAndDestroy(d0, h, i.onStop, i.onDestroy);
      wantStreamRestart := true;
      assert View() == d1.(wantStream := true);
      BackOff(i.delay, true);
    }

    method LaunchFails(delay: nat)
      modifies this, platform
      ensures View() == LaunchFailed(old(View()), delay)
    {
      hide Watch, Lawful, Exclusive, Observe, Allowed, PushModel.NoteStreamStartFailure, PushModel.BackOff, Emit;
      wantStreamRestart := true;
      NoteStreamStartFailure();
      BackOff(delay, false);
    }

    method TryStartStream(l: Launch) returns (ok: bool)
      requires Wired()
      modifies this, camera, platform
      ensures Wired() && (View(), ok) == PushModel.TryStartStream(old(View()), l)
    {
      hide Watch, Lawful, Exclusive, Observe, Allowed, Emit, Deliver;
      hide LaunchFailed, Launching, StartRefused, PushModel.StartAccepted;
      if stream.Some? { return true; }
      if connState != Connected { return false; }
      if !l.createOk {
        Callbacks(l.onCreate);
        LaunchFails(l.delay);
        return false;
      }
      var h := CreateAndStart(l);
      if !l.startOk {
        RefuseStart(h, l);
        return false;
      }
      StartAccepted(h);
      return true;
    }

    /** create_stream succeeds with a fresh handle, then start_stream runs. */
    method CreateAndStart(l: Launch) returns (h: nat)
      modifies this, platform
      ensures h == old(View()).handles && View() == Launching(old(View()), l)
    {
      hide Watch, Lawful, Exclusive, Observe, Allowed, Emit, Deliver;
      h := platform.handles;
      platform.handles := h + 1;
      Note(Create(h, source));
      Callbacks(l.onCreate);
      Callbacks(l.onStart);
    }

    method RefuseStart(h: nat, l: Launch)
      modifies this, platform
      ensures View() == StartRefused(old(View()), h, l)
    {
      hide Watch, Lawful, Exclusive, Observe, Allowed, Emit, Deliver, LaunchFailed;
      Note(Event.Start(h, false));
      Note(Destroy(h));
      Callbacks(l.onDestroy);
      LaunchFails(l.delay);
    }

    method StartAccepted(h: nat)
      requires Wired()
      modifies this, camera, platform
      ensures Wired() && View() == PushModel.StartAccepted(old(View()), h)
    {
      hide Watch, Lawful, Exclusive, Observe, Allowed, Emit;
      Note(Event.Start(h, true));
      Accept(h);
      camera.ClearRestartRequest();
    }

    method Accept(h: nat)
      modifies `stream, `streamActive, `wantStreamRestart, `consecutiveStreamFailures
      ensures stream == Some(h) && streamActive && !wantStreamRestart && consecutiveStreamFailures == 0
    {
      stream := Some(h);
      streamActive := true;
      wantStreamRestart := false;
      consecutiveStreamFailures := 0;
    }

    /** The first lines of a tick, and the same lines of main before its first start. */
    method NoticeRestart()
      requires Wired()
      modifies this, camera, platform`trace
      ensures Wired() && View() == Notice(old(View()))
    {
      hide Watch, Lawful, Exclusive, Observe, Allowed, Emit;
      if camera.restartRequested {
        Note(Noticed);
        wantStreamRestart := true;
        camera.ClearRestartRequest();
      }
    }

    method ServiceTick(now: int, i: TickInput)
      requires Wired()
      modifies this, camera, platform
      ensures Wired() && View() == PushModel.ServiceTick(old(View()), now, i)
    {
      hide Watch, Lawful, Exclusive, Observe, Allowed, Emit, TickBody, Notice;
      Note(TickBegin(now));
      NoticeRestart();
      TickAfterNotice(now, i);
      Note(TickEnd);
    }

    method TickAfterNotice(now: int, i: TickInput)
      requires Wired()
      modifies this, camera, platform
      ensures Wired() && View() == TickBody(old(View()), now, i)
    {
      hide Watch, Lawful, Exclusive, Observe, Allowed;
      if wantStreamRestart && stream.Some? {
        TeardownStream(i);
        return;
      }
      if stream.Some? && !camera.presentLast {
        TeardownStream(i);
        return;
      }
      Callbacks(i.gap);
      if wantConnectRestart {
        var _ := TryReconnectSignaling(now, i.reconnect);
      }
      StartIfDue(now, i);
    }

    /** The rest of a tick, from the stable-camera check on. */
    method StartIfDue(now: int, i: TickInput)
      requires Wired()
      modifies this, camera, platform
      ensures Wired() && View() == MaybeStart(old(View()), now, i)
    {
      hide Watch, Lawful, Exclusive, Observe, Allowed;
      if !wantStreamRestart && stream.Some? { return; }
      var ready := camera.IsStableAndReady(now, i.openOk);
      if !ready { return; }
      if now < nextStreamAttempt { return; }
      if !wantStreamRestart && stream.Some? { return; }
      if connState != Connected {
        wantConnectRestart := true;
        var _ := TryReconnectSignaling(now, i.late);
        return;
      }
      var _ := TryStartStream(i.launch);
    }

    method StopStreamForExit(e: Exit)
      modifies this, platform
      ensures View() == PushModel.StopStreamForExit(old(View()), e)
    {
      hide Watch, Lawful, Exclusive, Observe, Allowed, Emit, PushModel.StopAndDestroy;
      if stream.None? { return; }
      StopAndDestroy(stream.value, e.onStop, e.onDestroy);
      stream := None;
      streamActive := false;
    }
  }

  // ---- main ----

  method PrintStats(session: PushDemoSession, now: int)
    modifies session.platform
    ensures session.View() == PushModel.PrintStats(old(session.View()), now)
  {
    hide Watch, Lawful, Exclusive, Observe, Allowed;
    if now - session.platform.lastStats >= 5_000_000_000 {
      session.platform.lastStats := now;
      if session.stream.None? { return; }
      session.platform.Record(Stats(session.stream.value));
    }
  }

  method Iterate(session: PushDemoSession, i: LoopInput)
    requires session.Wired()
    modifies session, session.camera, session.platform
    ensures session.Wired() && session.View() == PushModel.Iterate(old(session.View()), i)
  {
    hide Watch, Lawful, Exclusive, Observe, Allowed, Emit, Deliver;
    hide PushModel.PollWait, PushModel.ServiceTick, PushModel.PrintStats;
    session.Callbacks(i.before);
    var now := session.ReadClock(i.delay);
    session.camera.PollWait(now, session.stream.Some?, i.poll);
    session.Callbacks(i.between);
    session.ServiceTick(now, i.tick);
    PrintStats(session, now);
    if i.interrupt {
      session.platform.stop := true;
    }
  }

  method BootCamera(session: PushDemoSession, b: Boot)
    requires session.Wired()
    modifies session, session.camera, session.platform
    ensures session.Wired() && session.View() == PushModel.BootCamera(old(session.View()), b)
  {
    hide Watch, Lawful, Exclusive, Observe, Allowed, Emit, Deliver, Notice;
    hide PushModel.SyncInitialPresence, StartMonitor, PushModel.PollWait;
    session.camera.SyncInitialPresence(b.identity, b.ready, b.syncDelay);
    session.camera.Start(b.udevOpens, b.startDelay, b.drained);
    var now := session.ReadClock(b.pollDelay);
    session.camera.PollWait(now, false, b.poll);
    session.NoticeRestart();
    session.Callbacks(b.between);
  }

  /** main before its loop; false when it gives up because the first connect failed. */
  method BootUp(session: PushDemoSession, b: Boot) returns (ok: bool)
    requires session.Wired()
    modifies session, session.camera, session.platform
    ensures session.Wired() && (session.View(), ok) == PushModel.BootUp(old(session.View()), b)
  {
    hide Watch, Lawful, Exclusive, Observe, Allowed, Emit;
    hide PushModel.BootCamera, PushModel.AttemptSignalingConnect, PushModel.TryStartStream;
    ok := session.AttemptSignalingConnect(b.connect);
    if !ok { return; }
    BootCamera(session, b);
    var _ := session.TryStartStream(b.launch);
    var now := session.ReadClock(b.loopDelay);
    session.platform.lastStats := now;
  }

  method Shutdown(session: PushDemoSession, e: Exit)
    requires session.Wired()
    modifies session, session.camera, session.platform
    ensures session.Wired() && session.View() == PushModel.Shutdown(old(session.View()), e)
  {
    hide Watch, Lawful, Exclusive, Observe, Allowed, Emit, Deliver, PushModel.StopStreamForExit;
    session.shuttingDown := true;
    session.camera.Stop();
    session.StopStreamForExit(e);
    session.Note(Disconnect);
    session.Callbacks(e.onDisconnect);
  }

  /** main from the construction of the session to its exit code. */
  method RunProgram(cameraPath: string, maxFailures: nat, clock: int, b: Boot, inputs: seq<LoopInput>, e: Exit)
    returns (session: PushDemoSession, code: int)
    ensures fresh(session) && session.Wired()
    ensures var ran := PushModel.BootUp(NewDemo(cameraPath, maxFailures, clock), b).1;
            var d := Run(cameraPath, maxFailures, clock, b, inputs);
            && session.View() == (if ran then PushModel.Shutdown(d, e) else d)
            && code == (if !ran then 1 else if d.exitDue then 2 else 0)
  {
    hide Watch, Lawful, Exclusive, Observe, Allowed, Emit, NewDemo;
    hide PushModel.BootUp, PushModel.Shutdown, PushModel.Iterate;
    session := new PushDemoSession(cameraPath, maxFailures, clock);
    var ok := BootUp(session, b);
    if !ok { return session, 1; }
    var k := 0;
    while k < |inputs| && !session.platform.stop
      invariant 0 <= k <= |inputs| && session.Wired()
      invariant fresh(session) && fresh(session.camera) && fresh(session.platform)
      invariant Loop(session.View(), inputs[k..]) == Run(cameraPath, maxFailures, clock, b, inputs)
    {
      assert inputs[k..][1..] == inputs[k + 1..];
      Iterate(session, inputs[k]);
      k := k + 1;
    }
    code := if session.exitDueToFailures then 2 else 0;
    Shutdown(session, e);
  }
}
