/**
 Every run of the push demo obeys the laws of PushTrace, whatever the SDK, the callbacks, udev and
 the clock do; and no connect or disconnect meets a held stream, except in two callback windows
 that are characterised exactly.
 */
module PushSafety {
  import opened Options
  import opened PushTrace
  import opened PushModel

  // ---- The invariant ----

  /** The exit flag is set exactly when the threshold is on and some run of failures reached it. */
  predicate Thresholds(d: Demo, w: Seen) {
    && (d.exitDue <==> 0 < d.maxFails <= w.peak)
    && (d.exitDue ==> d.stop)
    && w.startFails <= w.peak && w.roundFails <= w.peak
  }

  /** The monitor's record of the camera is what the history says. */
  predicate CameraAgrees(d: Demo, w: Seen) {
    && w.path == d.cam.path == d.source
    && w.identity == d.cam.identity
    && w.unseen == d.cam.restart
    && w.since == (if d.cam.present then Some(d.cam.since) else None)
    && (d.cam.present <==> d.cam.since != 0)
  }

  predicate SessionAgrees(d: Demo, w: Seen) {
    && w.created == d.handles
    && w.streamGate == d.nextStream && w.connectGate == d.nextConnect
    && w.startFails == d.streamFails && w.roundFails == d.connFails
    && (w.mustStop ==> w.phase.Live? && (d.cam.restart || d.wantStream))
    && (w.tick.Some? ==> w.tick.value <= d.clock)
    && 0 < d.clock
  }

  ghost predicate Inv(d: Demo, p: Phase) {
    var w := Watch(d.trace);
    && Lawful(d.trace) && w.phase == p
    && CameraAgrees(d, w) && SessionAgrees(d, w) && Thresholds(d, w)
    && (d.conn.Connected? ==> !d.wantConnect)
    && (p.Live? ==> d.nextStream <= d.clock)
  }

  function PhaseOf(d: Demo): Phase {
    match d.stream
    case None => NoHandle
    case Some(h) => Live(h)
  }

  ghost predicate Stable(d: Demo) { Inv(d, PhaseOf(d)) }

  /** Once set, the stop and exit flags stay set; the threshold is fixed. */
  predicate Sticky(d: Demo, r: Demo) {
    (d.stop ==> r.stop) && (d.exitDue ==> r.exitDue) && r.maxFails == d.maxFails
  }

  /** A held stream never coexists with a pending reconnect unless its own restart is pending too. */
  predicate Guarded(d: Demo) {
    d.stream.Some? && d.wantConnect ==> d.wantStream
  }

  // ---- Callbacks ----

  predicate IsLoss(cb: Callback) { cb.OnConnect? && (cb.conn.Disconnected? || cb.conn.Failed?) }

  /** Some loss in this window is not followed by CONNECTED. */
  predicate LossLast(cbs: seq<Callback>) {
    exists k :: 0 <= k < |cbs| && IsLoss(cbs[k]) && OnConnect(Connected) !in cbs[k + 1..]
  }

  /** Callbacks touch the connection flags only, and record only connection reports. */
  ghost predicate CallbackStep(d: Demo, r: Demo) {
    && r == d.(conn := r.conn, active := r.active, wantStream := r.wantStream, wantConnect := r.wantConnect,
               connFails := r.connFails, trace := r.trace)
    && (d.wantStream ==> r.wantStream)
    && (r.wantConnect && !d.wantConnect ==> r.wantStream)
    && d.trace <= r.trace
    && (Exclusive(d.trace) <==> Exclusive(r.trace))
    && Watch(r.trace) == Watch(d.trace).(roundFails := Watch(r.trace).roundFails)
  }

  lemma ConnectReportKeeps(d: Demo, state: ConnState, p: Phase)
    requires Inv(d, p)
    ensures Inv(HandleConnectState(d, state), p) && CallbackStep(d, HandleConnectState(d, state))
  {
    hide Watch, Lawful, Exclusive, Emit;
  }

  lemma StreamReportKeeps(d: Demo, state: StreamState, p: Phase)
    requires Inv(d, p)
    ensures Inv(HandleStreamState(d, state), p) && CallbackStep(d, HandleStreamState(d, state))
  {
    hide Watch, Lawful, Exclusive, Emit;
  }

  lemma {:induction false} DeliverKeeps(d: Demo, cbs: seq<Callback>, p: Phase)
    requires Inv(d, p)
    ensures Inv(Deliver(d, cbs), p) && CallbackStep(d, Deliver(d, cbs))
    decreases |cbs|
  {
    hide Watch, Lawful, Exclusive, Inv;
    if cbs != [] {
      match cbs[0] {
        case OnConnect(state) => ConnectReportKeeps(d, state, p);
        case OnStream(state) => StreamReportKeeps(d, state, p);
      }
      DeliverKeeps(Handle(d, cbs[0]), cbs[1..], p);
    }
  }

  lemma LossLastHead(cbs: seq<Callback>)
    requires cbs != []
    ensures LossLast(cbs) <==> LossLast(cbs[1..]) || (IsLoss(cbs[0]) && OnConnect(Connected) !in cbs[1..])
  {
  }

  lemma HandleReconnectFlag(d: Demo, cb: Callback)
    ensures Handle(d, cb).wantConnect <==> IsLoss(cb) || (d.wantConnect && cb != OnConnect(Connected))
  {
    hide Watch, Lawful, Exclusive, Emit;
  }

  /** A window of callbacks leaves a reconnect pending exactly when its last word is a loss. */
  lemma {:induction false} DeliverReconnectFlag(d: Demo, cbs: seq<Callback>)
    ensures Deliver(d, cbs).wantConnect <==> LossLast(cbs) || (d.wantConnect && OnConnect(Connected) !in cbs)
    decreases |cbs|
  {
    hide Handle, LossLast, IsLoss;
    if cbs == [] {
      NoLossInNothing();
    } else {
      HandleReconnectFlag(d, cbs[0]);
      DeliverReconnectFlag(Handle(d, cbs[0]), cbs[1..]);
      LossLastHead(cbs);
      assert cbs == [cbs[0]] + cbs[1..];
    }
  }

  lemma NoLossInNothing()
    ensures !LossLast([])
  {
  }

  // ---- Reconnecting ----

  ghost predicate MayConnect(d: Demo, now: int) {
    var w := Watch(d.trace);
    && w.tick == Some(now)
    && (w.attempts == 0 || d.conn.Connected? || now < d.nextConnect)
  }

  /** What a reconnect leaves alone. */
  predicate ReconnectFrame(d: Demo, r: Demo) {
    && r.stream == d.stream && r.cam == d.cam && r.source == d.source && r.nextStream == d.nextStream
    && r.handles == d.handles && r.clock == d.clock && r.streamFails == d.streamFails
    && (d.wantStream ==> r.wantStream) && Sticky(d, r)
    && d.trace <= r.trace
    && Watch(r.trace).mustStop == Watch(d.trace).mustStop && Watch(r.trace).checked == Watch(d.trace).checked
  }

  lemma AttemptKeeps(d: Demo, a: Attempt, p: Phase)
    requires Inv(d, p) && Allowed(Watch(d.trace), Connect)
    ensures var d' := AttemptSignalingConnect(d, a).0;
            && Inv(d', p) && CallbackStep(Emit(d, Connect), d') && ReconnectFrame(d, d')
            && Watch(d'.trace).attempts == Watch(d.trace).attempts + 1
            && (Exclusive(d'.trace) <==> Exclusive(d.trace) && p.NoHandle?)
  {
    hide Watch, Lawful, Exclusive, Emit;
    DeliverKeeps(Emit(d, Connect), a.during, p);
  }

  lemma ConnectSucceededKeeps(d: Demo, p: Phase)
    requires Inv(d, p) && d.conn.Connected?
    ensures Inv(ConnectSucceeded(d), p) && ReconnectFrame(d, ConnectSucceeded(d))
    ensures Watch(ConnectSucceeded(d).trace).tick == Watch(d.trace).tick
    ensures ConnectSucceeded(d).conn == d.conn && (Exclusive(ConnectSucceeded(d).trace) <==> Exclusive(d.trace))
  {
    hide Watch, Lawful, Exclusive, Emit;
  }

  lemma RoundFailsFields(d: Demo, now: int)
    ensures var e := Emit(d, RoundFailed(now));
            var due := 0 < d.maxFails <= Max(d.streamFails, d.connFails + 1);
            RoundFails(d, now) ==
            e.(connFails := d.connFails + 1, nextConnect := now + CONNECT_BACKOFF,
               exitDue := d.exitDue || due, stop := d.stop || due)
  {
    hide Emit;
    var e := Emit(d, RoundFailed(now));
    assert e == d.(trace := e.trace);
  }

  lemma RoundFailsKeeps(d: Demo, now: int, p: Phase)
    requires Inv(d, p) && d.nextConnect <= now && Watch(d.trace).tick == Some(now)
    ensures var d' := RoundFails(d, now);
            && Inv(d', p) && ReconnectFrame(d, d') && Watch(d'.trace).tick == Some(now)
            && now < d'.nextConnect && (Exclusive(d'.trace) <==> Exclusive(d.trace))
  {
    hide Watch, Lawful, Exclusive, Emit, Observe, Allowed, RoundFails;
    RoundFailedSeen(Watch(d.trace), now);
    RoundFailsFields(d, now);
  }

  lemma RoundFailedSeen(w: Seen, now: int)
    ensures Allowed(w, RoundFailed(now)) <==> w.connectGate <= now
    ensures Observe(w, RoundFailed(now)) ==
            w.(roundFails := w.roundFails + 1, connectGate := now + CONNECT_BACKOFF,
               peak := Max(w.peak, w.roundFails + 1))
  {
  }

  lemma ResetKeeps(d: Demo, during: seq<Callback>, p: Phase)
    requires Inv(d, p)
    ensures var d' := ResetConnection(d, during);
            && Inv(d', p) && ReconnectFrame(d, d') && d'.nextConnect == d.nextConnect
            && Watch(d'.trace).tick == Watch(d.trace).tick && Watch(d'.trace).attempts == Watch(d.trace).attempts
            && Watch(d'.trace).connectGate == d.nextConnect
            && (Exclusive(d'.trace) <==> Exclusive(d.trace) && p.NoHandle?)
  {
    hide Watch, Lawful, Exclusive, Emit;
    DeliverKeeps(Emit(d, Disconnect), during, p);
  }

  lemma RetryKeeps(d: Demo, now: int, r: Reconnect, p: Phase)
    requires Inv(d, p) && Watch(d.trace).tick == Some(now) && Watch(d.trace).attempts == 1 && d.nextConnect <= now
    ensures var d' := RetryAfterDisconnect(d, now, r).0;
            && Inv(d', p) && MayConnect(d', now) && ReconnectFrame(d, d')
            && (Exclusive(d'.trace) <==> Exclusive(d.trace) && p.NoHandle?)
  {
    hide Watch, Lawful, Exclusive, Emit, Inv, ResetConnection, RoundFails, ConnectSucceeded;
    ResetKeeps(d, r.onDisconnect, p);
    var d1 := ResetConnection(d, r.onDisconnect);
    AttemptKeeps(d1, r.second, p);
    var (d2, ok) := AttemptSignalingConnect(d1, r.second);
    if ok {
      ConnectSucceededKeeps(d2, p);
    } else {
      RoundFailsKeeps(d2, now, p);
    }
  }

  lemma ReconnectKeeps(d: Demo, now: int, r: Reconnect, p: Phase)
    requires Inv(d, p) && MayConnect(d, now)
    ensures var d' := TryReconnectSignaling(d, now, r).0;
            && Inv(d', p) && MayConnect(d', now) && ReconnectFrame(d, d')
            && (Exclusive(d'.trace) <==>
                  Exclusive(d.trace) && (p.NoHandle? || d.conn.Connected? || now < d.nextConnect))
            && (d.conn.Connected? || now < d.nextConnect ==> d'.trace == d.trace)
  {
    hide Watch, Lawful, Exclusive, Emit, RetryAfterDisconnect;
    if !d.conn.Connected? && d.nextConnect <= now {
      AttemptKeeps(d, r.first, p);
      var (d1, ok1) := AttemptSignalingConnect(d, r.first);
      if ok1 {
        ConnectSucceededKeeps(d1, p);
      } else {
        RetryKeeps(d1, now, r, p);
      }
    }
  }

  // ---- The stream ----

  lemma StopEventKeeps(d: Demo, h: nat)
    requires Inv(d, Live(h))
    ensures Inv(Emit(d, Stop(h)), Halted(h)) && !Watch(Emit(d, Stop(h)).trace).mustStop
  {
    hide Watch, Lawful, Exclusive, Emit;
  }

  lemma DestroyEventKeeps(d: Demo, h: nat, p: Phase)
    requires Inv(d, p) && (p == Halted(h) || p == Broken(h))
    ensures Inv(Emit(d, Destroy(h)), NoHandle)
  {
    hide Watch, Lawful, Exclusive, Emit;
  }

  lemma StopAndDestroyKeeps(d: Demo, h: nat, onStop: seq<Callback>, onDestroy: seq<Callback>)
    requires Inv(d, Live(h))
    ensures var d' := StopAndDestroy(d, h, onStop, onDestroy);
            && Inv(d', NoHandle) && !Watch(d'.trace).mustStop && Watch(d'.trace).tick == Watch(d.trace).tick
            && d'.stream == d.stream && d'.cam == d.cam && d'.clock == d.clock && d'.nextStream == d.nextStream
            && Sticky(d, d') && d'.exitDue == d.exitDue
            && (Exclusive(d'.trace) <==> Exclusive(d.trace))
  {
    hide Watch, Lawful, Exclusive, Emit, Inv;
    var e1 := Emit(d, Stop(h));
    StopEventKeeps(d, h);
    DeliverKeeps(e1, onStop, Halted(h));
    var d1 := Deliver(e1, onStop);
    DestroyEventKeeps(d1, h, Halted(h));
    DeliverKeeps(Emit(d1, Destroy(h)), onDestroy, NoHandle);
  }

  lemma TeardownKeeps(d: Demo, i: TickInput)
    requires Stable(d) && d.stream.Some?
    ensures var d' := TeardownStream(d, i);
            && Stable(d') && d'.stream.None? && d'.cam == d.cam
            && d'.wantStream && d'.nextStream == d'.clock + STREAM_BACKOFF
            && Watch(d'.trace).tick == Watch(d.trace).tick && !Watch(d'.trace).mustStop
            && (Exclusive(d'.trace) <==> Exclusive(d.trace)) && Sticky(d, d')
  {
    hide Watch, Lawful, Exclusive, Emit, StopAndDestroy;
    StopAndDestroyKeeps(d.(stream := None, active := false), d.stream.value, i.onStop, i.onDestroy);
  }

  lemma LaunchFailedKeeps(d: Demo, delay: nat)
    requires Inv(d, NoHandle) && d.stream.None? && d.nextStream <= d.clock
    ensures var d' := LaunchFailed(d, delay);
            && Stable(d') && d'.stream.None? && d'.cam == d.cam && d'.wantStream
            && Watch(d'.trace).tick == Watch(d.trace).tick && !Watch(d'.trace).mustStop
            && (Exclusive(d'.trace) <==> Exclusive(d.trace)) && Sticky(d, d')
  {
    hide Watch, Lawful, Exclusive, Emit;
  }

  /** What the history must say before a stream may be created. */
  ghost predicate MayCreate(d: Demo) {
    var w := Watch(d.trace);
    && d.stream.None? && !d.cam.restart && d.nextStream <= d.clock
    && (w.tick.Some? ==>
          && d.nextStream <= w.tick.value && d.cam.present && STABLE <= w.tick.value - d.cam.since
          && w.checked == Some(d.cam.path))
  }

  lemma LaunchingKeeps(d: Demo, l: Launch)
    requires Inv(d, NoHandle) && MayCreate(d)
    ensures var d' := Launching(d, l);
            && Inv(d', Fresh(d.handles))
            && d' == d.(handles := d.handles + 1, conn := d'.conn, active := d'.active, wantStream := d'.wantStream,
                        wantConnect := d'.wantConnect, connFails := d'.connFails, trace := d'.trace)
            && (Exclusive(d'.trace) <==> Exclusive(d.trace))
            && Watch(d'.trace).tick == Watch(d.trace).tick && !Watch(d'.trace).mustStop
            && !Watch(d'.trace).unseen
  {
    hide Watch, Lawful, Exclusive, Emit;
    var p := Fresh(d.handles);
    var d1 := Emit(d.(handles := d.handles + 1), Create(d.handles, d.source));
    assert Inv(d1, p);
    DeliverKeeps(d1, l.onCreate, p);
    DeliverKeeps(Deliver(d1, l.onCreate), l.onStart, p);
  }

  lemma StartRefusedKeeps(d: Demo, h: nat, l: Launch)
    requires Inv(d, Fresh(h)) && d.stream.None? && d.nextStream <= d.clock && !d.cam.restart
    ensures var d' := StartRefused(d, h, l);
            && Stable(d') && d'.stream.None? && d'.cam == d.cam && d'.wantStream
            && Watch(d'.trace).tick == Watch(d.trace).tick && !Watch(d'.trace).mustStop
            && (Exclusive(d'.trace) <==> Exclusive(d.trace)) && Sticky(d, d')
  {
    hide Watch, Lawful, Exclusive, Emit, LaunchFailed;
    var e1 := Emit(d, Start(h, false));
    assert Inv(e1, Broken(h));
    var e2 := Emit(e1, Destroy(h));
    DestroyEventKeeps(e1, h, Broken(h));
    DeliverKeeps(e2, l.onDestroy, NoHandle);
    LaunchFailedKeeps(Deliver(e2, l.onDestroy), l.delay);
  }

  lemma StartAcceptedKeeps(d: Demo, h: nat)
    requires Inv(d, Fresh(h)) && d.nextStream <= d.clock && !d.cam.restart && !Watch(d.trace).mustStop
    ensures var d' := StartAccepted(d, h);
            && Inv(d', Live(h)) && d'.stream == Some(h) && d'.cam == d.cam
            && Sticky(d, d') && d'.wantConnect == d.wantConnect && !d'.wantStream
            && Watch(d'.trace).tick == Watch(d.trace).tick && !Watch(d'.trace).mustStop
            && (Exclusive(d'.trace) <==> Exclusive(d.trace))
  {
    hide Watch, Lawful, Exclusive, Emit;
  }

  /** What a start attempt leaves alone, and what it never spoils. */
  ghost predicate StartFrame(d: Demo, r: Demo) {
    && r.cam == d.cam && Watch(r.trace).tick == Watch(d.trace).tick
    && (!Watch(d.trace).mustStop ==> !Watch(r.trace).mustStop)
    && (Exclusive(r.trace) <==> Exclusive(d.trace))
    && Sticky(d, r)
  }

  lemma TryStartKeeps(d: Demo, l: Launch)
    requires Stable(d) && (d.stream.None? ==> MayCreate(d))
    ensures var (d', ok) := TryStartStream(d, l);
            && Stable(d') && StartFrame(d, d') && (ok <==> d'.stream.Some?)
  {
    hide Watch, Lawful, Exclusive, Emit, Launching, StartRefused, StartAccepted, LaunchFailed;
    if d.stream.None? && d.conn.Connected? {
      if !l.createOk {
        DeliverKeeps(d, l.onCreate, NoHandle);
        LaunchFailedKeeps(Deliver(d, l.onCreate), l.delay);
      } else {
        LaunchingKeeps(d, l);
        if l.startOk {
          StartAcceptedKeeps(Launching(d, l), d.handles);
        } else {
          StartRefusedKeeps(Launching(d, l), d.handles, l);
        }
      }
    }
  }

  // ---- The camera monitor ----

  /** What watching the camera leaves alone. */
  ghost predicate WatchFrame(d: Demo, r: Demo) {
    && r.conn == d.conn && r.active == d.active && r.wantConnect == d.wantConnect && r.stream == d.stream
    && r.nextStream == d.nextStream && r.nextConnect == d.nextConnect
    && Sticky(d, r) && r.lastStats == d.lastStats && r.shuttingDown == d.shuttingDown
    && (d.wantStream ==> r.wantStream) && d.clock <= r.clock
    && Watch(r.trace).tick == Watch(d.trace).tick
    && (Exclusive(r.trace) <==> Exclusive(d.trace))
  }

  lemma PresenceEdgeKeeps(d: Demo, present: bool, at: int, p: Phase)
    requires Inv(d, p) && (p.NoHandle? || p.Live?) && 0 < at && present != d.cam.present
    ensures var d' := ApplyPresence(d, present, at);
            && Inv(d', p) && WatchFrame(d, d')
  {
    hide Watch, Lawful, Exclusive, Emit;
  }

  /** A change of presence is the next event of the history, is remembered with its instant, and asks for a restart. */
  lemma ApplyPresenceKeeps(d: Demo, present: bool, at: int)
    requires Stable(d) && 0 < at
    ensures var d' := ApplyPresence(d, present, at);
            && Stable(d') && WatchFrame(d, d') && d'.cam.present == present && d'.cam.path == d.cam.path
            && (present == d.cam.present ==> d' == d)
            && (present != d.cam.present ==>
                  && d'.cam.restart && (present ==> d'.cam.since == at)
                  && Watch(d'.trace) == Observe(Watch(d.trace), Presence(present, at)))
  {
    hide Watch, Lawful, Exclusive, Emit, Inv, Observe;
    if present != d.cam.present {
      PresenceEdgeKeeps(d, present, at, PhaseOf(d));
    }
  }

  /** A migration moves monitor and session to the new node together and asks for a restart. */
  lemma AdoptDevPathKeeps(d: Demo, path: string, at: int)
    requires Stable(d) && 0 < at && d.cam.identity != ""
    ensures var d' := AdoptDevPath(d, path, d.cam.identity, at);
            && Stable(d') && WatchFrame(d, d') && d'.cam.identity == d.cam.identity
            && (path == "" || path == d.cam.path ==> d' == d)
            && (path != "" && path != d.cam.path ==>
                  && d'.cam.path == d'.source == path && d'.cam.restart && d'.wantStream
                  && d'.cam.present && d'.cam.since == at
                  && Watch(d'.trace) == Observe(Watch(d.trace), Moved(path, d.cam.identity, at)))
  {
    hide Watch, Lawful, Exclusive, Emit;
  }

  lemma WaitKeeps(d: Demo, delay: nat)
    requires Stable(d)
    ensures Stable(Wait(d, delay)) && WatchFrame(d, Wait(d, delay))
  {
    hide Watch, Lawful, Exclusive, Emit;
  }

  lemma FrameChain(d: Demo, e: Demo, f: Demo)
    requires WatchFrame(d, e) && WatchFrame(e, f)
    ensures WatchFrame(d, f)
  {
    hide Watch, Lawful, Exclusive;
  }

  lemma FrameOf(d: Demo)
    ensures WatchFrame(d, d)
  {
  }

  lemma ClockPositive(d: Demo)
    requires Stable(d)
    ensures 0 < d.clock
  {
    hide Watch, Lawful;
  }

  lemma HandleUdevKeeps(d: Demo, e: UdevEvent)
    requires Stable(d)
    ensures Stable(HandleUdevDevice(d, e)) && WatchFrame(d, HandleUdevDevice(d, e))
  {
    hide Watch, Lawful, Exclusive, Emit, ApplyPresence, AdoptDevPath, Stable, WatchFrame, Wait;
    var d1 := Wait(d, e.delay);
    WaitKeeps(d, e.delay);
    ClockPositive(d1);
    var r := HandleUdevDevice(d, e);
    if r == d1 {
      FrameOf(d1);
    } else if r == ApplyPresence(d1, false, d1.clock) {
      ApplyPresenceKeeps(d1, false, d1.clock);
    } else if r == ApplyPresence(d1, true, d1.clock) {
      ApplyPresenceKeeps(d1, true, d1.clock);
    } else {
      AdoptDevPathKeeps(d1, e.devnode.value, d1.clock);
    }
    FrameChain(d, d1, r);
  }

  lemma {:induction false} DrainKeeps(d: Demo, events: seq<UdevEvent>)
    requires Stable(d)
    ensures Stable(Drain(d, events)) && WatchFrame(d, Drain(d, events))
    decreases |events|
  {
    hide Watch, Lawful, Exclusive, Emit, HandleUdevDevice, Stable;
    if events != [] {
      HandleUdevKeeps(d, events[0]);
      DrainKeeps(HandleUdevDevice(d, events[0]), events[1..]);
    }
  }

  /** Bookkeeping instants play no part in the invariant. */
  lemma StampKeeps(d: Demo, probe: int, reconcile: int, udev: bool, stats: int)
    requires Stable(d)
    ensures var cam := d.cam.(lastProbe := probe, lastReconcile := reconcile, useUdev := udev);
            var d' := d.(cam := cam, lastStats := stats);
            Stable(d') && (Guarded(d') <==> Guarded(d))
  {
    hide Watch, Lawful, Exclusive;
  }

  lemma PollUdevKeeps(d: Demo, now: int, held: bool, p: Poll)
    requires Stable(d) && 0 < now
    ensures Stable(PollUdev(d, now, held, p)) && WatchFrame(d, PollUdev(d, now, held, p))
  {
    hide Watch, Lawful, Exclusive, Emit, ApplyPresence, Drain, Stable, ToMs;
    DrainKeeps(d, p.events);
    var d1 := if p.readable then Drain(d, p.events) else d;
    StampKeeps(d1, d1.cam.lastProbe, now, d1.cam.useUdev, d1.lastStats);
    ApplyPresenceKeeps(d1.(cam := d1.cam.(lastReconcile := now)), false, now);
  }

  lemma PollWaitKeeps(d: Demo, now: int, held: bool, p: Poll)
    requires Stable(d) && 0 < now
    ensures Stable(PollWait(d, now, held, p)) && WatchFrame(d, PollWait(d, now, held, p))
  {
    hide Watch, Lawful, Exclusive, Emit, ApplyPresence, PollUdev, Stable, ToMs;
    if d.cam.useUdev {
      PollUdevKeeps(d, now, held, p);
    } else {
      StampKeeps(d, now, d.cam.lastReconcile, d.cam.useUdev, d.lastStats);
      ApplyPresenceKeeps(d.(cam := d.cam.(lastProbe := now)), d.cam.path != "" && p.accessOk, now);
    }
  }

  lemma NoticeKeeps(d: Demo)
    requires Stable(d)
    ensures Stable(Notice(d)) && WatchFrame(d, Notice(d)) && !Notice(d).cam.restart
    ensures Notice(d).cam == d.cam.(restart := false) && (d.cam.restart ==> Notice(d).wantStream)
    ensures Watch(Notice(d).trace).attempts == Watch(d.trace).attempts
  {
    hide Watch, Lawful, Exclusive, Emit;
  }

  lemma ReadyCheckKeeps(d: Demo, ok: bool)
    requires Stable(d)
    ensures var d' := Emit(d, ReadyCheck(d.cam.path, ok));
            && Stable(d') && (Exclusive(d'.trace) <==> Exclusive(d.trace))
            && Watch(d'.trace) == Watch(d.trace).(checked := if ok then Some(d.cam.path) else None)
  {
    hide Watch, Lawful, Exclusive, Emit;
  }

  lemma PresenceHasInstant(d: Demo)
    requires Stable(d)
    ensures d.cam.present <==> d.cam.since != 0
  {
    hide Watch, Lawful, Exclusive;
  }

  lemma StableMillis(elapsed: int)
    ensures ToMs(elapsed) < 1500 <==> elapsed < STABLE
  {
  }

  lemma CheckOutcome(d: Demo, now: int, openOk: bool)
    requires d.cam.present ==> d.cam.since != 0
    ensures IsStableAndReady(d, now, openOk) ==
            if !d.cam.present || now - d.cam.since < STABLE then (d, false)
            else (Emit(d, ReadyCheck(d.cam.path, d.cam.path != "" && openOk)), d.cam.path != "" && openOk)
  {
    hide Emit, ToMs;
    StableMillis(now - d.cam.since);
  }

  /** The fallback for an unset `present_since_` is dead: a present camera always has its instant. */
  lemma StableAndReady(d: Demo, now: int, openOk: bool)
    requires Stable(d) && Watch(d.trace).tick == Some(now)
    ensures var (d', ready) := IsStableAndReady(d, now, openOk);
            && Stable(d') && d' == d.(trace := d'.trace) && (Exclusive(d'.trace) <==> Exclusive(d.trace))
            && Watch(d'.trace).tick == Some(now) && Watch(d'.trace).attempts == Watch(d.trace).attempts
            && Watch(d'.trace).mustStop == Watch(d.trace).mustStop
            && (ready ==>
                  && d.cam.present && STABLE <= now - d.cam.since
                  && Watch(d'.trace).checked == Some(d.cam.path))
            && (ready <==> d.cam.present && STABLE <= now - d.cam.since && d.cam.path != "" && openOk)
  {
    hide Watch, Lawful, Exclusive, Emit, Stable, IsStableAndReady;
    PresenceHasInstant(d);
    CheckOutcome(d, now, openOk);
    if d.cam.present && STABLE <= now - d.cam.since {
      ReadyCheckKeeps(d, d.cam.path != "" && openOk);
    }
  }

  // ---- One tick ----

  /** Between the teardown checks and the end of a tick. */
  ghost predicate InTick(d: Demo, now: int) {
    && Stable(d) && !d.cam.restart && !Watch(d.trace).mustStop
    && MayConnect(d, now)
    && (d.stream.Some? ==> d.cam.present)
  }

  lemma MaybeReconnectKeeps(d: Demo, now: int, r: Reconnect)
    requires InTick(d, now)
    ensures var d' := MaybeReconnect(d, now, r);
            && InTick(d', now) && ReconnectFrame(d, d') && (Guarded(d) ==> Guarded(d'))
            && (Exclusive(d'.trace) <==>
                  Exclusive(d.trace) && (d.wantConnect ==> d.stream.None? || now < d.nextConnect))
            && (!d.wantConnect || now < d.nextConnect ==> d' == d)
  {
    hide Watch, Lawful, Exclusive, Emit, RetryAfterDisconnect, AttemptSignalingConnect, ConnectSucceeded;
    if d.wantConnect {
      ReconnectKeeps(d, now, r, PhaseOf(d));
    }
  }

  predicate ReadyForStream(d: Demo, now: int, i: TickInput) {
    d.cam.present && STABLE <= now - d.cam.since && d.cam.path != "" && i.openOk && d.nextStream <= now
  }

  lemma MaybeStartKeeps(d: Demo, now: int, i: TickInput)
    requires InTick(d, now)
    ensures var d' := MaybeStart(d, now, i);
            && Stable(d') && !Watch(d'.trace).mustStop && d'.cam == d.cam
            && (d'.stream.Some? ==> d'.cam.present) && Watch(d'.trace).tick == Some(now)
            && Sticky(d, d')
            && (Exclusive(d'.trace) <==>
                  Exclusive(d.trace) &&
                  !(d.stream.Some? && d.wantStream && ReadyForStream(d, now, i)
                    && !d.conn.Connected? && d.nextConnect <= now))
  {
    hide Watch, Lawful, Exclusive, Emit, TryReconnectSignaling, IsStableAndReady, TryStartStream;
    if d.wantStream || d.stream.None? {
      StableAndReady(d, now, i.openOk);
      var (d1, ready) := IsStableAndReady(d, now, i.openOk);
      if ready && d1.nextStream <= now {
        if !d1.conn.Connected? {
          ReconnectKeeps(d1.(wantConnect := true), now, i.late, PhaseOf(d1));
        } else {
          TryStartKeeps(d1, i.launch);
        }
      }
    }
  }

  lemma {:induction false} DeliverConcat(d: Demo, a: seq<Callback>, b: seq<Callback>)
    ensures Deliver(Deliver(d, a), b) == Deliver(d, a + b)
    decreases |a|
  {
    hide Handle;
    if a == [] {
      assert a + b == b;
    } else {
      DeliverConcat(Handle(d, a[0]), a[1..], b);
      assert (a + b)[1..] == a[1..] + b;
    }
  }

  /**
   A start attempt ends guarded, exactly unless the stream came up while the last word of the
   callbacks made during create_stream and start_stream was a loss: the flag store after
   start_stream then erases the restart those callbacks asked for.
   */
  lemma StartWindow(d: Demo, l: Launch)
    requires Stable(d) && Guarded(d) && (d.stream.None? ==> MayCreate(d))
    ensures var (d', ok) := TryStartStream(d, l);
            Guarded(d') <==> !(d.stream.None? && d'.stream.Some? && LossLast(l.onCreate + l.onStart))
  {
    hide Watch, Lawful, Exclusive, Emit, LossLast, LaunchFailed;
    TryStartKeeps(d, l);
    if d.stream.None? && d.conn.Connected? && l.createOk && l.startOk {
      var d1 := Emit(d.(handles := d.handles + 1), Create(d.handles, d.source));
      DeliverConcat(d1, l.onCreate, l.onStart);
      DeliverReconnectFlag(d1, l.onCreate + l.onStart);
    }
  }

  lemma MaybeStartGuards(d: Demo, now: int, i: TickInput)
    requires InTick(d, now) && Guarded(d)
    ensures var d' := MaybeStart(d, now, i);
            Guarded(d') <==> !(d.stream.None? && d'.stream.Some? && LossLast(i.launch.onCreate + i.launch.onStart))
  {
    hide Watch, Lawful, Exclusive, Emit, TryReconnectSignaling, IsStableAndReady, TryStartStream, LossLast;
    if d.wantStream || d.stream.None? {
      StableAndReady(d, now, i.openOk);
      var (d1, ready) := IsStableAndReady(d, now, i.openOk);
      if ready && d1.nextStream <= now {
        if !d1.conn.Connected? {
          ReconnectKeeps(d1.(wantConnect := true), now, i.late, PhaseOf(d1));
        } else {
          StartWindow(d1, i.launch);
        }
      }
    }
  }

  // ---- One tick ----

  /** The state the teardown checks of a tick look at. */
  ghost function Opening(d: Demo, now: int): Demo { Notice(Emit(d, TickBegin(now))) }

  /** main reads the clock before the tick. */
  ghost predicate Timely(d: Demo, now: int) {
    0 < now <= d.clock && (Watch(d.trace).tick.Some? ==> Watch(d.trace).tick.value <= now)
  }

  lemma OpeningKeeps(d: Demo, now: int)
    requires Stable(d) && Timely(d, now)
    ensures var o := Opening(d, now);
            && Stable(o) && WatchFrame(Emit(d, TickBegin(now)), o) && !o.cam.restart
            && o.cam == d.cam.(restart := false) && o.nextConnect == d.nextConnect && o.nextStream == d.nextStream
            && (d.cam.restart ==> o.wantStream) && (o.wantStream ==> d.wantStream || d.cam.restart)
            && Watch(o.trace).tick == Some(now) && Watch(o.trace).attempts == 0
            && (Exclusive(o.trace) <==> Exclusive(d.trace)) && (Guarded(d) ==> Guarded(o))
  {
    hide Watch, Lawful, Exclusive, Emit;
    var e := Emit(d, TickBegin(now));
    assert Stable(e);
    NoticeKeeps(e);
  }

  /**
   The tick calls the signalling API with a stream in hand: the teardown checks let the stream
   live, then callbacks landing before the reconnect check asked for a restart and left the
   session unconnected, with the connect backoff over.
   */
  ghost predicate Collides(d: Demo, now: int, i: TickInput) {
    var o := Opening(d, now);
    var g := Deliver(o, i.gap);
    && o.stream.Some? && !MustTearDown(o)
    && !g.conn.Connected? && d.nextConnect <= now
    && (g.wantConnect || (g.wantStream && ReadyForStream(g, now, i)))
  }

  lemma SurvivorsInTick(d: Demo, now: int, i: TickInput)
    requires Stable(d) && Timely(d, now) && !MustTearDown(Opening(d, now))
    ensures var g := Deliver(Opening(d, now), i.gap);
            && InTick(g, now) && (Guarded(d) ==> Guarded(g)) && (Exclusive(g.trace) <==> Exclusive(d.trace))
            && g.stream == d.stream && g.nextConnect == d.nextConnect && Sticky(d, g)
  {
    hide Watch, Lawful, Exclusive, Emit, Opening;
    OpeningKeeps(d, now);
    DeliverKeeps(Opening(d, now), i.gap, PhaseOf(d));
  }

  lemma TickBodyKeeps(d: Demo, now: int, i: TickInput)
    requires Stable(d) && Timely(d, now)
    ensures var d' := TickBody(Opening(d, now), now, i);
            && Stable(d') && !Watch(d'.trace).mustStop
            && (d'.stream.Some? ==> d'.cam.present) && Watch(d'.trace).tick == Some(now)
            && Sticky(d, d')
            && (MustTearDown(Opening(d, now)) ==> d'.stream.None?)
            && (Exclusive(d'.trace) <==> Exclusive(d.trace) && !Collides(d, now, i))
  {
    hide Watch, Lawful, Exclusive, Emit, Opening, MaybeStart, MaybeReconnect, TeardownStream, Deliver;
    OpeningKeeps(d, now);
    var o := Opening(d, now);
    if MustTearDown(o) {
      TeardownKeeps(o, i);
    } else {
      SurvivorsInTick(d, now, i);
      var g := Deliver(o, i.gap);
      MaybeReconnectKeeps(g, now, i.reconnect);
      MaybeStartKeeps(MaybeReconnect(g, now, i.reconnect), now, i);
    }
  }

  /**
   One tick, from any reachable state, with any SDK results and callbacks: the laws hold again, no
   stream is held without a recorded camera, a tick that finds a restart wanted or the camera gone
   ends with no stream, and signalling is touched with a stream in hand exactly when the tick
   `Collides`.
   */
  lemma TickKeeps(d: Demo, now: int, i: TickInput)
    requires Stable(d) && Timely(d, now)
    ensures var d' := ServiceTick(d, now, i);
            && Stable(d') && (d'.stream.Some? ==> d'.cam.present) && Watch(d'.trace).tick == Some(now)
            && Sticky(d, d')
            && (MustTearDown(Opening(d, now)) ==> d'.stream.None?)
            && (Exclusive(d'.trace) <==> Exclusive(d.trace) && !Collides(d, now, i))
  {
    hide Watch, Lawful, Exclusive, Emit, TickBody, Collides, MustTearDown;
    TickBodyKeeps(d, now, i);
  }
}
