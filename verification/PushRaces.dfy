/**
 Two callback windows in which a lost connection makes the session call the signalling API with a
 stream in hand. Each is shown by a concrete run; PushSafety.TickKeeps and PushSafety.StartWindow
 say exactly when it happens.
 */
module PushRaces {
  import opened Options
  import opened PushTrace
  import opened PushModel
  import opened PushSafety
  import opened PushRuns

  const UP: Attempt := Attempt(true, [OnConnect(Connected)])
  const LOSS: seq<Callback> := [OnConnect(Disconnected)]
  const NO_NEWS: Poll := Poll(false, [], true)

  /** A camera that is there, a server that answers, and the given callbacks during start_stream. */
  function PlainBoot(onStart: seq<Callback>): Boot {
    Boot(UP, "serial:1", true, 0, true, 0, [], 0, NO_NEWS, [], Launch(true, [], true, onStart, [], 0), 0)
  }

  function PlainLoop(gap: seq<Callback>): LoopInput {
    var retry := Reconnect(UP, [], UP);
    LoopInput([], 0, NO_NEWS, [],
              TickInput([], [], 0, gap, retry, true, retry, Launch(true, [], true, [], [], 0)), false)
  }

  lemma DeliverOne(d: Demo, cb: Callback)
    ensures Deliver(d, [cb]) == Handle(d, cb) && Deliver(d, []) == d
  {
    hide Emit, Handle;
    assert [cb][1..] == [];
    assert Deliver(Handle(d, cb), []) == Handle(d, cb);
  }

  lemma ConnectsAtBoot(d: Demo)
    ensures var (d', ok) := AttemptSignalingConnect(d, UP);
            ok && d' == d.(conn := Connected, wantConnect := false, connFails := 0, trace := d'.trace)
  {
    hide Emit, Watch, Lawful, Exclusive;
    DeliverOne(Emit(d, Connect), OnConnect(Connected));
  }

  lemma MonitorAtBoot(d: Demo)
    requires !d.cam.restart && d.cam.path != "" && 0 < d.clock
    ensures var d' := StartMonitor(SyncInitialPresence(d, "serial:1", true, 0), true, 0, []);
            && d' == d.(cam := d'.cam, trace := d'.trace)
            && d'.cam == Camera(d.cam.path, "serial:1", true, d.clock, false, true, d.clock, d.clock)
  {
    hide Emit, Watch, Lawful, Exclusive;
  }

  lemma CameraAtBoot(d: Demo, onStart: seq<Callback>)
    requires !d.cam.restart && d.cam.path != "" && 0 < d.clock
    ensures var d' := BootCamera(d, PlainBoot(onStart));
            d' == d.(cam := d'.cam, trace := d'.trace) && d'.cam.present && !d'.cam.restart && d'.cam.path == d.cam.path
            && d'.cam.useUdev && d'.cam.lastReconcile == d.clock
  {
    hide Emit, Watch, Lawful, Exclusive, SyncInitialPresence, StartMonitor;
    MonitorAtBoot(d);
  }

  lemma StreamsAtBoot(d: Demo, onStart: seq<Callback>)
    requires d.stream.None? && d.conn.Connected? && !d.wantConnect && (onStart == [] || onStart == LOSS)
    ensures var (d', ok) := TryStartStream(d, PlainBoot(onStart).launch);
            && d'.stream == Some(d.handles) && !d'.wantStream && d'.cam == d.cam.(restart := false)
            && d' == d.(conn := d'.conn, wantConnect := d'.wantConnect, stream := d'.stream, active := true,
                        wantStream := false, streamFails := 0, cam := d'.cam, handles := d'.handles, trace := d'.trace)
            && d'.conn == (if onStart == [] then Connected else Disconnected)
            && (d'.wantConnect <==> onStart == LOSS)
  {
    hide Emit, Watch, Lawful, Exclusive;
    var d1 := Emit(d.(handles := d.handles + 1), Create(d.handles, d.source));
    DeliverOne(d1, OnConnect(Disconnected));
  }

  /** The state in which the main loop begins. */
  ghost predicate Streaming(d: Demo) {
    && d.stream.Some? && !d.wantStream && d.cam.present && !d.cam.restart
    && d.nextConnect == 0 && d.clock == 1 && !d.stop
    && d.cam.useUdev && d.cam.lastReconcile == 1
  }

  lemma StreamingAtBoot(onStart: seq<Callback>)
    requires onStart == [] || onStart == LOSS
    ensures var (d, ok) := BootUp(NewDemo("/dev/video0", 0, 1), PlainBoot(onStart));
            && ok && Streaming(d)
            && d.conn == (if onStart == [] then Connected else Disconnected)
            && (d.wantConnect <==> onStart == LOSS)
  {
    hide Emit, Watch, Lawful, Exclusive, BootCamera, AttemptSignalingConnect, TryStartStream;
    var d := NewDemo("/dev/video0", 0, 1);
    ConnectsAtBoot(d);
    var d1 := AttemptSignalingConnect(d, UP).0;
    CameraAtBoot(d1, onStart);
    StreamsAtBoot(BootCamera(d1, PlainBoot(onStart)), onStart);
  }

  lemma NothingNew(d: Demo, gap: seq<Callback>)
    requires Streaming(d)
    ensures BeforeTick(d, PlainLoop(gap)) == d && TickTime(d, PlainLoop(gap)) == 1
    ensures var o := Opening(d, 1); o == d.(trace := o.trace) && !MustTearDown(o)
  {
    hide Emit, Watch, Lawful, Exclusive;
    DeliverOne(d, OnConnect(Connected));
  }

  /** One loop iteration, seen from the history only. */
  lemma OneIteration(d: Demo, gap: seq<Callback>)
    requires Streaming(d) && Stable(d) && !Exclusive(ServiceTick(d, 1, PlainLoop(gap).tick).trace)
    ensures !Exclusive(Loop(d, [PlainLoop(gap)]).trace)
  {
    hide Emit, Watch, Lawful, Exclusive, ServiceTick, BeforeTick, Iterate, PrintStats, Stable;
    var i := PlainLoop(gap);
    NothingNew(d, gap);
    IterateUnfolds(d, i);
    BeforeTickKeeps(d, i);
    TickKeeps(d, 1, i.tick);
    PrintStatsKeeps(ServiceTick(d, 1, i.tick), 1);
    assert [i][1..] == [];
    assert Loop(Iterate(d, i), []) == Iterate(d, i);
  }

  lemma StableAtBoot(onStart: seq<Callback>)
    ensures var d := BootUp(NewDemo("/dev/video0", 0, 1), PlainBoot(onStart)).0;
            && Stable(d) && Exclusive(d.trace) && (onStart == [] ==> Guarded(d))
  {
    hide Emit, Watch, Lawful, Exclusive, BootUp, NewDemo, Stable;
    NewDemoBoots("/dev/video0", 0, 1);
    BootUpKeeps(NewDemo("/dev/video0", 0, 1), PlainBoot(onStart));
    if onStart == [] {
      assert onStart + [] == [];
      NoLossInNothing();
    }
  }

  /** A connection lost between the teardown checks and the reconnect check of the first tick. */
  lemma LossInsideTick()
    ensures !Exclusive(Run("/dev/video0", 0, 1, PlainBoot([]), [PlainLoop(LOSS)]).trace)
  {
    hide Emit, Watch, Lawful, Exclusive, BootUp, NewDemo, Opening, ServiceTick, Loop, Stable, Handle;
    StreamingAtBoot([]);
    StableAtBoot([]);
    var d := BootUp(NewDemo("/dev/video0", 0, 1), PlainBoot([])).0;
    NothingNew(d, LOSS);
    BeforeTickKeeps(d, PlainLoop(LOSS));
    TickKeeps(d, 1, PlainLoop(LOSS).tick);
    assert Collides(d, 1, PlainLoop(LOSS).tick) by { LossLeavesUnconnected(Opening(d, 1)); }
    OneIteration(d, LOSS);
  }

  lemma LossLeavesUnconnected(d: Demo)
    ensures var g := Deliver(d, LOSS); g.wantConnect && g.conn == Disconnected && g.nextConnect == d.nextConnect
  {
    hide Emit, Watch, Lawful, Exclusive;
    DeliverOne(d, OnConnect(Disconnected));
  }

  /** A connection lost during the start_stream of the first stream; nothing goes wrong afterwards. */
  lemma LossDuringStart()
    ensures !Exclusive(Run("/dev/video0", 0, 1, PlainBoot(LOSS), [PlainLoop([])]).trace)
  {
    hide Emit, Watch, Lawful, Exclusive, BootUp, NewDemo, Loop, Stable, Handle;
    hide Opening, TickBody, MaybeStart, MaybeReconnect;
    StreamingAtBoot(LOSS);
    StableAtBoot(LOSS);
    var d := BootUp(NewDemo("/dev/video0", 0, 1), PlainBoot(LOSS)).0;
    var i := PlainLoop([]).tick;
    NothingNew(d, []);
    BeforeTickKeeps(d, PlainLoop([]));
    SurvivorsInTick(d, 1, i);
    var g := Deliver(Opening(d, 1), []);
    assert g == Opening(d, 1) by {
      DeliverOne(g, OnConnect(Connected));
      DeliverOne(Opening(d, 1), OnConnect(Connected));
    }
    MaybeReconnectKeeps(g, 1, i.reconnect);
    MaybeStartKeeps(MaybeReconnect(g, 1, i.reconnect), 1, i);
    assert TickBody(Opening(d, 1), 1, i) == MaybeStart(MaybeReconnect(g, 1, i.reconnect), 1, i) by {
      TickBodySurvives(Opening(d, 1), 1, i);
    }
    TickUnfolds(d, 1, i);
    OneIteration(d, []);
  }

  lemma TickBodySurvives(o: Demo, now: int, i: TickInput)
    requires !MustTearDown(o)
    ensures TickBody(o, now, i) == MaybeStart(MaybeReconnect(Deliver(o, i.gap), now, i.reconnect), now, i)
  {
    hide Deliver, MaybeStart, MaybeReconnect;
  }
}
