/**
 The push demo as a function of its inputs: `Demo` is every field of the session, of the camera
 monitor and of the main loop, together with the clock, the stop flag and the history so far.
 Whatever the outside world decides (SDK results, callbacks, udev events, node probes, how long
 things take) is an argument. The classes of PushDemo.dfy are proved equal to these functions.
 */
module PushModel {
  import opened Options
  import opened PushTrace

  datatype StreamState = StreamIdle | StreamOpening | StreamOpened | StreamClosing | StreamClosed | StreamFailed

  /** An SDK callback reaching the session. */
  datatype Callback = OnConnect(conn: ConnState) | OnStream(state: StreamState)

  datatype Camera = Camera(
    path: string, identity: string, present: bool, since: int, restart: bool,
    useUdev: bool, lastProbe: int, lastReconcile: int)

  datatype Demo = Demo(
    conn: ConnState, active: bool, wantStream: bool, wantConnect: bool, shuttingDown: bool,
    stream: Option<nat>, nextStream: int, nextConnect: int,
    streamFails: nat, connFails: nat, maxFails: nat, exitDue: bool,
    source: string, cam: Camera,
    clock: int, stop: bool, handles: nat, lastStats: int, trace: seq<Event>)

  // ---- Inputs ----

  /** One svc_connect: its return code and the callbacks made before it returned. */
  datatype Attempt = Attempt(rcOk: bool, during: seq<Callback>)

  datatype Reconnect = Reconnect(first: Attempt, onDisconnect: seq<Callback>, second: Attempt)

  /** create_stream, start_stream and, after a failure, destroy_stream. */
  datatype Launch = Launch(
    createOk: bool, onCreate: seq<Callback>, startOk: bool, onStart: seq<Callback>,
    onDestroy: seq<Callback>, delay: nat)

  datatype TickInput = TickInput(
    onStop: seq<Callback>, onDestroy: seq<Callback>, delay: nat,
    gap: seq<Callback>,  // callbacks landing between the teardown checks and the reconnect check
    reconnect: Reconnect, openOk: bool, late: Reconnect, launch: Launch)

  datatype UdevEvent = UdevEvent(
    action: Option<string>, devnode: Option<string>, subsystem: Option<string>, capture: bool,
    identity: string, ready: bool, delay: nat)

  datatype Poll = Poll(readable: bool, events: seq<UdevEvent>, accessOk: bool)

  datatype LoopInput = LoopInput(
    before: seq<Callback>, delay: nat, poll: Poll, between: seq<Callback>, tick: TickInput, interrupt: bool)

  datatype Boot = Boot(
    connect: Attempt, identity: string, ready: bool, syncDelay: nat,
    udevOpens: bool, startDelay: nat, drained: seq<UdevEvent>,
    pollDelay: nat, poll: Poll, between: seq<Callback>, launch: Launch, loopDelay: nat)

  datatype Exit = Exit(onStop: seq<Callback>, onDestroy: seq<Callback>, onDisconnect: seq<Callback>)

  // ---- Clock and history ----

  ghost function Emit(d: Demo, e: Event): (r: Demo)
    ensures Watch(r.trace) == Observe(Watch(d.trace), e)
    ensures Lawful(r.trace) <==> Lawful(d.trace) && Allowed(Watch(d.trace), e)
    ensures Exclusive(r.trace) <==>
            Exclusive(d.trace) && (e.Connect? || e.Disconnect? ==> Watch(d.trace).phase.NoHandle?)
    ensures r == d.(trace := r.trace) && d.trace <= r.trace
  {
    assert Front(d.trace + [e]) == d.trace;
    d.(trace := d.trace + [e])
  }

  /** Some time passes and the clock is read: the reading is the new `clock`. */
  function Wait(d: Demo, delay: nat): Demo { d.(clock := d.clock + delay) }

  /** duration_cast<milliseconds>: truncation toward zero. */
  function ToMs(ns: int): int {
    if ns >= 0 then ns / 1_000_000 else -(-ns / 1_000_000)
  }

  // ---- Callbacks ----

  function StoreConnState(d: Demo, state: ConnState): Demo {
    var d := d.(conn := state);
    match state
    case Connected => d.(wantConnect := false, connFails := 0)
    case Disconnected => d.(wantConnect := true, wantStream := true)
    case Failed => d.(wantConnect := true, wantStream := true)
    case _ => d
  }

  ghost function HandleConnectState(d: Demo, state: ConnState): Demo {
    StoreConnState(Emit(d, ConnReport(state)), state)
  }

  function HandleStreamState(d: Demo, state: StreamState): Demo {
    var d :=
      if !d.shuttingDown && (state.StreamFailed? || (state.StreamClosed? && d.active))
      then d.(wantStream := true) else d;
    if state.StreamIdle? || state.StreamClosed? then d.(active := false)
    else if state.StreamOpened? then d.(active := true)
    else d
  }

  ghost function Handle(d: Demo, cb: Callback): Demo {
    match cb
    case OnConnect(s) => HandleConnectState(d, s)
    case OnStream(s) => HandleStreamState(d, s)
  }

  ghost function Deliver(d: Demo, cbs: seq<Callback>): Demo
    decreases |cbs|
  {
    if cbs == [] then d else Deliver(Handle(d, cbs[0]), cbs[1..])
  }

  // ---- Failure counters ----

  function CheckFailureExitThreshold(d: Demo): Demo {
    if d.maxFails <= 0 then d
    else if Max(d.streamFails, d.connFails) < d.maxFails then d
    else d.(exitDue := true, stop := true)
  }

  function NoteStreamStartFailure(d: Demo): Demo {
    CheckFailureExitThreshold(d.(streamFails := d.streamFails + 1))
  }

  function NoteConnectFailure(d: Demo): Demo {
    CheckFailureExitThreshold(d.(connFails := d.connFails + 1))
  }

  // ---- Signalling ----

  ghost function AttemptSignalingConnect(d: Demo, a: Attempt): (Demo, bool) {
    var d := Deliver(Emit(d, Connect), a.during);
    (d, a.rcOk && d.conn.Connected?)
  }

  ghost function ConnectSucceeded(d: Demo): Demo {
    Emit(d, Reconnected).(connFails := 0, wantConnect := false)
  }

  ghost function TryReconnectSignaling(d: Demo, now: int, r: Reconnect): (Demo, bool) {
    if d.conn.Connected? then (d.(wantConnect := false), true)
    else if now < d.nextConnect then (d, false)
    else
      var (d1, ok1) := AttemptSignalingConnect(d, r.first);
      if ok1 then (ConnectSucceeded(d1), true)
      else RetryAfterDisconnect(d1, now, r)
  }

  ghost function ResetConnection(d: Demo, during: seq<Callback>): Demo {
    Deliver(Emit(d, Disconnect), during).(conn := Idle)
  }

  ghost function RetryAfterDisconnect(d: Demo, now: int, r: Reconnect): (Demo, bool) {
    var (d2, ok) := AttemptSignalingConnect(ResetConnection(d, r.onDisconnect), r.second);
    if ok then (ConnectSucceeded(d2), true) else (RoundFails(d2, now), false)
  }

  ghost function RoundFails(d: Demo, now: int): Demo {
    NoteConnectFailure(Emit(d, RoundFailed(now))).(nextConnect := now + CONNECT_BACKOFF)
  }

  // ---- The stream ----

  /** The stream may be tried again one backoff after the clock reading taken here. */
  ghost function BackOff(d: Demo, delay: nat, tornDown: bool): Demo {
    var d := Wait(d, delay);
    Emit(d, if tornDown then Teardown(d.clock) else StartFailed(d.clock)).(nextStream := d.clock + STREAM_BACKOFF)
  }

  ghost function StopAndDestroy(d: Demo, h: nat, onStop: seq<Callback>, onDestroy: seq<Callback>): Demo {
    Deliver(Emit(Deliver(Emit(d, Stop(h)), onStop), Destroy(h)), onDestroy)
  }

  ghost function TeardownStream(d: Demo, i: TickInput): Demo {
    match d.stream
    case None => d
    case Some(h) =>
      var d1 := StopAndDestroy(d.(stream := None, active := false), h, i.onStop, i.onDestroy);
      BackOff(d1.(wantStream := true), i.delay, true)
  }

  /** Both failure exits of TryStartStream. */
  ghost function LaunchFailed(d: Demo, delay: nat): Demo {
    BackOff(NoteStreamStartFailure(d.(wantStream := true)), delay, false)
  }

  /** A stream was created and start_stream is about to return. */
  ghost function Launching(d: Demo, l: Launch): Demo {
    var d1 := Emit(d.(handles := d.handles + 1), Create(d.handles, d.source));
    Deliver(Deliver(d1, l.onCreate), l.onStart)
  }

  ghost function StartRefused(d: Demo, h: nat, l: Launch): Demo {
    LaunchFailed(Deliver(Emit(Emit(d, Start(h, false)), Destroy(h)), l.onDestroy), l.delay)
  }

  ghost function StartAccepted(d: Demo, h: nat): Demo {
    Emit(d, Start(h, true)).(
      stream := Some(h), active := true, wantStream := false, streamFails := 0, cam := d.cam.(restart := false))
  }

  ghost function TryStartStream(d: Demo, l: Launch): (Demo, bool) {
    if d.stream.Some? then (d, true)
    else if !d.conn.Connected? then (d, false)
    else if !l.createOk then (LaunchFailed(Deliver(d, l.onCreate), l.delay), false)
    else if !l.startOk then (StartRefused(Launching(d, l), d.handles, l), false)
    else (StartAccepted(Launching(d, l), d.handles), true)
  }

  ghost function StopStreamForExit(d: Demo, e: Exit): Demo {
    match d.stream
    case None => d
    case Some(h) =>
      StopAndDestroy(d, h, e.onStop, e.onDestroy).(stream := None, active := false)
  }

  // ---- The camera monitor ----

  ghost function ApplyPresence(d: Demo, present: bool, at: int): Demo {
    if present == d.cam.present then d
    else Emit(d, Presence(present, at)).(
      cam := d.cam.(present := present, since := if present then at else 0, restart := true))
  }

  ghost function AdoptDevPath(d: Demo, path: string, identity: string, at: int): Demo {
    if path == "" || path == d.cam.path then d
    else Emit(d, Moved(path, identity, at)).(
      cam := d.cam.(path := path, present := true, since := at, restart := true),
      source := path, wantStream := true)
  }

  ghost function HandleUdevDevice(d: Demo, e: UdevEvent): Demo {
    var d := Wait(d, e.delay);
    if e.action.None? || e.devnode.None? || e.subsystem != Some("video4linux") || !e.capture then d
    else
      var node := e.devnode.value;
      if e.action.value == "remove" then
        if d.cam.path == node then ApplyPresence(d, false, d.clock) else d
      else if e.action.value != "add" then d
      else if d.cam.path == node then ApplyPresence(d, true, d.clock)
      else if d.cam.identity == "" || e.identity == "" || e.identity != d.cam.identity || !e.ready then d
      else AdoptDevPath(d, node, e.identity, d.clock)
  }

  ghost function Drain(d: Demo, events: seq<UdevEvent>): Demo
    decreases |events|
  {
    if events == [] then d else Drain(HandleUdevDevice(d, events[0]), events[1..])
  }

  ghost function SyncInitialPresence(d: Demo, identity: string, ready: bool, delay: nat): Demo {
    var d := Wait(d, delay);
    var present := d.cam.path != "" && ready;
    Emit(d, Synced(identity, present, d.clock)).(
      cam := d.cam.(identity := identity, present := present, since := if present then d.clock else 0,
                    restart := d.cam.restart || !present))
  }

  ghost function StartMonitor(d: Demo, opens: bool, delay: nat, drained: seq<UdevEvent>): Demo {
    var d := Wait(d, delay);
    var d := d.(cam := d.cam.(useUdev := opens, lastProbe := d.clock, lastReconcile := d.clock));
    if opens then Drain(d, drained) else d
  }

  /** The udev branch of PollWait: drain what arrived, then now and then check the node itself. */
  ghost function PollUdev(d: Demo, now: int, streamHeld: bool, p: Poll): Demo {
    var d := if p.readable then Drain(d, p.events) else d;
    if ToMs(now - d.cam.lastReconcile) < 5000 then d
    else
      var d := d.(cam := d.cam.(lastReconcile := now));
      if streamHeld && d.cam.present && !(d.cam.path != "" && p.accessOk)
      then ApplyPresence(d, false, now) else d
  }

  /** The branch without udev: probe the node now and then. */
  ghost function ProbeNode(d: Demo, now: int, p: Poll): Demo {
    if ToMs(now - d.cam.lastProbe) < 2000 then d
    else ApplyPresence(d.(cam := d.cam.(lastProbe := now)), d.cam.path != "" && p.accessOk, now)
  }

  ghost function PollWait(d: Demo, now: int, streamHeld: bool, p: Poll): Demo {
    if d.cam.useUdev then PollUdev(d, now, streamHeld, p) else ProbeNode(d, now, p)
  }

  ghost function IsStableAndReady(d: Demo, now: int, openOk: bool): (Demo, bool) {
    if !d.cam.present then (d, false)
    else
      var since := if d.cam.since == 0 then now else d.cam.since;
      if ToMs(now - since) < 1500 then (d, false)
      else
        var ready := d.cam.path != "" && openOk;
        (Emit(d, ReadyCheck(d.cam.path, ready)), ready)
  }

  // ---- One tick and one run ----

  ghost function Notice(d: Demo): Demo {
    if d.cam.restart
    then Emit(d, Noticed).(wantStream := true, cam := d.cam.(restart := false))
    else d
  }

  /** The tick must take the running stream down: a restart is wanted, or the camera is gone. */
  predicate MustTearDown(d: Demo) {
    d.stream.Some? && (d.wantStream || !d.cam.present)
  }

  ghost function MaybeReconnect(d: Demo, now: int, r: Reconnect): Demo {
    if d.wantConnect then TryReconnectSignaling(d, now, r).0 else d
  }

  ghost function MaybeStart(d: Demo, now: int, i: TickInput): Demo {
    if !d.wantStream && d.stream.Some? then d
    else
      var (d, ready) := IsStableAndReady(d, now, i.openOk);
      if !ready || now < d.nextStream then d
      else if !d.conn.Connected? then TryReconnectSignaling(d.(wantConnect := true), now, i.late).0
      else TryStartStream(d, i.launch).0
  }

  ghost function TickBody(d: Demo, now: int, i: TickInput): Demo {
    if MustTearDown(d) then TeardownStream(d, i)
    else MaybeStart(MaybeReconnect(Deliver(d, i.gap), now, i.reconnect), now, i)
  }

  ghost function ServiceTick(d: Demo, now: int, i: TickInput): Demo {
    Emit(TickBody(Notice(Emit(d, TickBegin(now))), now, i), TickEnd)
  }

  ghost function PrintStats(d: Demo, now: int): Demo {
    if now - d.lastStats < 5_000_000_000 then d
    else
      var d := d.(lastStats := now);
      if d.stream.Some? then Emit(d, Stats(d.stream.value)) else d
  }

  ghost function Iterate(d: Demo, i: LoopInput): Demo {
    var d := Wait(Deliver(d, i.before), i.delay);
    var now := d.clock;
    var d := Deliver(PollWait(d, now, d.stream.Some?, i.poll), i.between);
    var d := PrintStats(ServiceTick(d, now, i.tick), now);
    d.(stop := d.stop || i.interrupt)
  }

  ghost function Loop(d: Demo, inputs: seq<LoopInput>): Demo
    decreases |inputs|
  {
    if inputs == [] || d.stop then d else Loop(Iterate(d, inputs[0]), inputs[1..])
  }

  /** A new session: `clock` is the first reading of the steady clock, which is past its epoch. */
  ghost function NewDemo(camera: string, maxFails: nat, clock: int): Demo {
    Emit(Demo(Idle, false, false, false, false, None, 0, 0, 0, 0, maxFails, false, camera,
              Camera(camera, "", false, 0, false, false, 0, 0), clock, false, 0, 0, []),
         Configured(camera))
  }

  ghost function BootCamera(d: Demo, b: Boot): Demo {
    var d := SyncInitialPresence(d, b.identity, b.ready, b.syncDelay);
    var d := Wait(StartMonitor(d, b.udevOpens, b.startDelay, b.drained), b.pollDelay);
    Deliver(Notice(PollWait(d, d.clock, false, b.poll)), b.between)
  }

  /** main up to its loop; false when the first connect failed and the program gave up. */
  ghost function BootUp(d: Demo, b: Boot): (Demo, bool) {
    var (d, ok) := AttemptSignalingConnect(d, b.connect);
    if !ok then (d, false)
    else
      var d := Wait(TryStartStream(BootCamera(d, b), b.launch).0, b.loopDelay);
      (d.(lastStats := d.clock), true)
  }

  ghost function Shutdown(d: Demo, e: Exit): Demo {
    var d := StopStreamForExit(d.(shuttingDown := true, cam := d.cam.(useUdev := false)), e);
    Deliver(Emit(d, Disconnect), e.onDisconnect)
  }

  ghost function Run(camera: string, maxFails: nat, clock: int, b: Boot, inputs: seq<LoopInput>): Demo {
    var (d, ok) := BootUp(NewDemo(camera, maxFails, clock), b);
    if ok then Loop(d, inputs) else d
  }
}
