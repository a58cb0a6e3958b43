/**
 "A held stream is connected or about to be restarted": an invariant one would expect of the session,
 the exact callbacks that break it, and a run that ends without it.
 */
module PushCover {
  import opened Options
  import opened PushTrace
  import opened PushModel
  import opened PushSafety
  import opened PushRuns
  import opened PushRaces

  predicate Covered(d: Demo) {
    d.stream.Some? ==> d.conn.Connected? || d.wantStream
  }

  /** Changes the connection state and raises no flag. */
  predicate Vague(s: ConnState) { s.Idle? || s.Connecting? }

  function LastReport(cbs: seq<Callback>): Option<ConnState>
    decreases |cbs|
  {
    if cbs == [] then None
    else if LastReport(cbs[1..]).Some? then LastReport(cbs[1..])
    else if cbs[0].OnConnect? then Some(cbs[0].conn)
    else None
  }

  /** Whether the stream counts as active after a callback. */
  predicate ActiveAfter(active: bool, cb: Callback) {
    match cb
    case OnConnect(_) => active
    case OnStream(s) => s.StreamOpened? || (active && !s.StreamIdle? && !s.StreamClosed?)
  }

  /** Some callback asks for the stream to be restarted; a CLOSED does so only while the stream is active. */
  predicate Asks(active: bool, shuttingDown: bool, cbs: seq<Callback>)
    decreases |cbs|
  {
    cbs != [] &&
    (AsksNow(active, shuttingDown, cbs[0]) || Asks(ActiveAfter(active, cbs[0]), shuttingDown, cbs[1..]))
  }

  predicate AsksNow(active: bool, shuttingDown: bool, cb: Callback) {
    match cb
    case OnConnect(s) => s.Disconnected? || s.Failed?
    case OnStream(s) => !shuttingDown && (s.StreamFailed? || (s.StreamClosed? && active))
  }

  lemma HandleOutcome(d: Demo, cb: Callback)
    ensures var r := Handle(d, cb);
            && r.stream == d.stream && r.shuttingDown == d.shuttingDown && r.active == ActiveAfter(d.active, cb)
            && (r.wantStream <==> d.wantStream || AsksNow(d.active, d.shuttingDown, cb))
            && r.conn == (if cb.OnConnect? then cb.conn else d.conn)
  {
    hide HandleConnectState, HandleStreamState;
    match cb
    case OnConnect(s) => ConnectOutcome(d, s);
    case OnStream(s) => StreamOutcome(d, s);
  }

  lemma StreamOutcome(d: Demo, s: StreamState)
    ensures var r := HandleStreamState(d, s);
            && r.stream == d.stream && r.shuttingDown == d.shuttingDown && r.conn == d.conn
            && r.active == (s.StreamOpened? || (d.active && !s.StreamIdle? && !s.StreamClosed?))
            && (r.wantStream <==>
                  d.wantStream || (!d.shuttingDown && (s.StreamFailed? || (s.StreamClosed? && d.active))))
  {
  }

  lemma ConnectOutcome(d: Demo, s: ConnState)
    ensures var r := HandleConnectState(d, s);
            && r.stream == d.stream && r.shuttingDown == d.shuttingDown && r.active == d.active
            && (r.wantStream <==> d.wantStream || s.Disconnected? || s.Failed?)
            && r.conn == s
  {
    hide Emit;
    var e := Emit(d, ConnReport(s));
    assert e == d.(trace := e.trace);
  }

  /** One callback breaks the invariant exactly when it is a vague report on a stream nobody asked to restart. */
  lemma HandleUncovers(d: Demo, cb: Callback)
    requires Covered(d)
    ensures Covered(Handle(d, cb)) <==> !(d.stream.Some? && !d.wantStream && cb.OnConnect? && Vague(cb.conn))
  {
    hide Handle;
    HandleOutcome(d, cb);
  }

  lemma {:induction false} DeliverOutcome(d: Demo, cbs: seq<Callback>)
    ensures var r := Deliver(d, cbs);
            && r.stream == d.stream
            && (r.wantStream <==> d.wantStream || Asks(d.active, d.shuttingDown, cbs))
            && r.conn == (if LastReport(cbs).Some? then LastReport(cbs).value else d.conn)
    decreases |cbs|
  {
    hide Handle, AsksNow, ActiveAfter;
    if cbs != [] {
      HandleOutcome(d, cbs[0]);
      DeliverOutcome(Handle(d, cbs[0]), cbs[1..]);
    }
  }

  /** The callbacks leave a stream that nobody asked to restart, and their last report is a vague one. */
  predicate Uncovers(d: Demo, cbs: seq<Callback>) {
    && d.stream.Some? && !d.wantStream && !Asks(d.active, d.shuttingDown, cbs)
    && LastReport(cbs).Some? && Vague(LastReport(cbs).value)
  }

  lemma {:induction false} LossAsks(active: bool, shuttingDown: bool, cbs: seq<Callback>)
    requires LastReport(cbs).Some? && (LastReport(cbs).value.Disconnected? || LastReport(cbs).value.Failed?)
    ensures Asks(active, shuttingDown, cbs)
    decreases |cbs|
  {
    if cbs != [] && LastReport(cbs[1..]).Some? {
      LossAsks(ActiveAfter(active, cbs[0]), shuttingDown, cbs[1..]);
    }
  }

  /** Any window of callbacks, from a covered state. */
  lemma DeliverUncovers(d: Demo, cbs: seq<Callback>)
    requires Covered(d)
    ensures Covered(Deliver(d, cbs)) <==> !Uncovers(d, cbs)
  {
    hide Deliver, Asks, LastReport;
    DeliverOutcome(d, cbs);
    if LastReport(cbs).Some? && !LastReport(cbs).value.Connected? && !Vague(LastReport(cbs).value) {
      LossAsks(d.active, d.shuttingDown, cbs);
    }
  }

  // ---- One tick ----

  /** The stream came up although its callbacks ended on a report other than CONNECTED. */
  predicate StartsUncovered(d: Demo, d': Demo, l: Launch) {
    d.stream.None? && d'.stream.Some? && LastReport(l.onCreate + l.onStart) !in {None, Some(Connected)}
  }

  lemma StartCovers(d: Demo, l: Launch)
    requires Covered(d)
    ensures var d' := TryStartStream(d, l).0; Covered(d') <==> !StartsUncovered(d, d', l)
  {
    hide Watch, Lawful, Exclusive, Emit, LastReport, Deliver, LaunchFailed, StartRefused, Asks;
    if d.stream.None? && d.conn.Connected? {
      if l.createOk && l.startOk {
        var d1 := Emit(d.(handles := d.handles + 1), Create(d.handles, d.source));
        DeliverConcat(d1, l.onCreate, l.onStart);
        DeliverOutcome(d1, l.onCreate + l.onStart);
      } else {
        RefusedHoldsNothing(d, l);
      }
    }
  }

  lemma RefusedHoldsNothing(d: Demo, l: Launch)
    requires d.stream.None? && !(l.createOk && l.startOk)
    ensures TryStartStream(d, l).0.stream.None?
  {
    hide Watch, Lawful, Exclusive, Emit, Deliver, Asks, LastReport;
    DeliverOutcome(d, l.onCreate);
    var d1 := Emit(d.(handles := d.handles + 1), Create(d.handles, d.source));
    DeliverOutcome(d1, l.onCreate);
    DeliverOutcome(Deliver(d1, l.onCreate), l.onStart);
    var d2 := Launching(d, l);
    assert d2.stream.None?;
    hide Launching;
    DeliverOutcome(Emit(Emit(d2, Start(d.handles, false)), Destroy(d.handles)), l.onDestroy);
  }

  /** After its teardown checks, a tick changes nothing about a held stream if nobody wants a restart or a reconnect. */
  lemma HeldThroughTick(g: Demo, now: int, i: TickInput)
    requires InTick(g, now) && g.stream.Some?
    requires !g.wantConnect && !g.wantStream
    ensures var r := MaybeStart(MaybeReconnect(g, now, i.reconnect), now, i);
            r.stream == g.stream && r.wantStream == g.wantStream && r.conn == g.conn
  {
    hide Watch, Lawful, Exclusive, Emit, IsStableAndReady;
    hide AttemptSignalingConnect, RetryAfterDisconnect, ConnectSucceeded;
    MaybeReconnectKeeps(g, now, i.reconnect);
    StableAndReady(MaybeReconnect(g, now, i.reconnect), now, i.openOk);
  }

  /** A wanted restart of a held stream stays wanted to the end of the tick, whatever the reconnects do. */
  lemma WantedThroughTick(g: Demo, now: int, i: TickInput)
    requires InTick(g, now) && g.stream.Some? && g.wantStream
    ensures var r := MaybeStart(MaybeReconnect(g, now, i.reconnect), now, i);
            r.stream == g.stream && r.wantStream
  {
    hide Watch, Lawful, Exclusive, Emit, IsStableAndReady, TryReconnectSignaling, MaybeReconnect;
    MaybeReconnectKeeps(g, now, i.reconnect);
    var g1 := MaybeReconnect(g, now, i.reconnect);
    StableAndReady(g1, now, i.openOk);
    var (g2, ready) := IsStableAndReady(g1, now, i.openOk);
    if ready && g2.nextStream <= now && !g2.conn.Connected? {
      ReconnectKeeps(g2.(wantConnect := true), now, i.late, PhaseOf(g2));
    }
  }

  lemma UnheldThroughTick(g: Demo, now: int, i: TickInput)
    requires InTick(g, now) && g.stream.None?
    ensures var r := MaybeStart(MaybeReconnect(g, now, i.reconnect), now, i);
            Covered(r) <==> !StartsUncovered(g, r, i.launch)
  {
    hide Watch, Lawful, Exclusive, Emit, LastReport;
    hide IsStableAndReady, TryReconnectSignaling, TryStartStream, MaybeReconnect;
    MaybeReconnectKeeps(g, now, i.reconnect);
    var g1 := MaybeReconnect(g, now, i.reconnect);
    StableAndReady(g1, now, i.openOk);
    var (g2, ready) := IsStableAndReady(g1, now, i.openOk);
    if ready && g2.nextStream <= now {
      if g2.conn.Connected? {
        StartCovers(g2, i.launch);
      } else {
        ReconnectKeeps(g2.(wantConnect := true), now, i.late, NoHandle);
      }
    }
  }

  /**
   A tick leaves a covered state exactly when the callbacks after its teardown checks uncover the
   running stream, or it brings a stream up on a last report other than CONNECTED.
   */
  lemma TickCovers(d: Demo, now: int, i: TickInput)
    requires Stable(d) && Timely(d, now) && Covered(d)
    ensures var o := Opening(d, now);
            var d' := ServiceTick(d, now, i);
            Covered(d') <==>
            !(!MustTearDown(o) && Uncovers(o, i.gap)) && !StartsUncovered(d, d', i.launch)
  {
    hide Watch, Lawful, Exclusive, Emit, Uncovers, Asks, LastReport;
    hide Opening, Deliver, MaybeStart, MaybeReconnect, TeardownStream;
    OpeningKeeps(d, now);
    var o := Opening(d, now);
    TickUnfolds(d, now, i);
    if MustTearDown(o) {
      TeardownKeeps(o, i);
    } else {
      SurvivorsInTick(d, now, i);
      var g := Deliver(o, i.gap);
      DeliverUncovers(o, i.gap);
      DeliverOutcome(o, i.gap);
      if g.stream.None? {
        UnheldThroughTick(g, now, i);
      } else if g.wantStream {
        WantedThroughTick(g, now, i);
      } else {
        ConnectedWantsNothing(o);
        DeliverKeeps(o, i.gap, PhaseOf(o));
        HeldThroughTick(g, now, i);
      }
    }
  }

  lemma ConnectedWantsNothing(d: Demo)
    requires Stable(d) && d.conn.Connected?
    ensures !d.wantConnect
  {
    hide Watch, Lawful;
  }

  /** Start-up ends covered exactly unless the first stream came up on a last report other than CONNECTED. */
  lemma BootCovers(d: Demo, b: Boot)
    requires Booting(d)
    ensures var d' := BootUp(d, b).0; Covered(d') <==> !StartsUncovered(d, d', b.launch)
  {
    hide Watch, Lawful, Exclusive, Emit, LastReport;
    hide AttemptSignalingConnect, BootCamera, TryStartStream;
    AttemptKeeps(d, b.connect, NoHandle);
    var (d1, ok) := AttemptSignalingConnect(d, b.connect);
    if ok {
      BootCameraKeeps(d1, b);
      StartCovers(BootCamera(d1, b), b.launch);
    }
  }

  // ---- Whole runs ----

  /** The state after the callbacks between two iterations, before the monitor polls. */
  ghost function Woken(d: Demo, i: LoopInput): Demo { Wait(Deliver(d, i.before), i.delay) }

  /** The state after the poll, before the callbacks that precede the tick. */
  ghost function Polled(d: Demo, i: LoopInput): Demo {
    var w := Woken(d, i);
    PollWait(w, w.clock, w.stream.Some?, i.poll)
  }

  /** Covered after each window of callbacks of the iteration, and at its end. */
  ghost predicate CoveredThroughout(d: Demo, i: LoopInput) {
    Covered(Woken(d, i)) && Covered(BeforeTick(d, i)) && Covered(Iterate(d, i))
  }

  /** Some window of the iteration, or a stream that comes up in it, breaks the invariant. */
  ghost predicate IterationUncovers(d: Demo, i: LoopInput) {
    var o := Opening(BeforeTick(d, i), TickTime(d, i));
    || Uncovers(d, i.before)
    || Uncovers(Polled(d, i), i.between)
    || (!MustTearDown(o) && Uncovers(o, i.tick.gap))
    || StartsUncovered(BeforeTick(d, i), Iterate(d, i), i.tick.launch)
  }

  lemma PollingCovers(d: Demo, i: LoopInput)
    requires Stable(d)
    ensures Covered(Woken(d, i)) <==> Covered(Deliver(d, i.before))
    ensures Covered(Woken(d, i)) ==> Covered(Polled(d, i))
  {
    hide Watch, Lawful, Exclusive, Emit, Deliver, PollWait;
    DeliverKeeps(d, i.before, PhaseOf(d));
    WaitKeeps(Deliver(d, i.before), i.delay);
    var w := Woken(d, i);
    PollWaitKeeps(w, w.clock, w.stream.Some?, i.poll);
  }

  lemma WindowsCover(d: Demo, i: LoopInput)
    requires Stable(d) && Covered(d)
    ensures Covered(Woken(d, i)) <==> !Uncovers(d, i.before)
    ensures Covered(Woken(d, i)) ==> (Covered(BeforeTick(d, i)) <==> !Uncovers(Polled(d, i), i.between))
  {
    hide Watch, Lawful, Exclusive, Emit, Uncovers, Stable, Deliver;
    PollingCovers(d, i);
    DeliverUncovers(d, i.before);
    Waking(d, i);
    hide Woken, BeforeTick, Polled;
    if Covered(Woken(d, i)) {
      DeliverUncovers(Polled(d, i), i.between);
    }
  }

  lemma IterateFields(d: Demo, i: LoopInput)
    ensures var t := ServiceTick(BeforeTick(d, i), TickTime(d, i), i.tick);
            var r := Iterate(d, i);
            r.stream == t.stream && r.conn == t.conn && r.wantStream == t.wantStream
  {
    hide Watch, Lawful, Exclusive, Emit, ServiceTick, BeforeTick;
    IterateUnfolds(d, i);
    hide Iterate;
  }

  lemma IterateEnds(d: Demo, i: LoopInput)
    requires Stable(d) && Covered(BeforeTick(d, i))
    ensures var b := BeforeTick(d, i);
            var o := Opening(b, TickTime(d, i));
            Covered(Iterate(d, i)) <==>
            !(!MustTearDown(o) && Uncovers(o, i.tick.gap)) && !StartsUncovered(b, Iterate(d, i), i.tick.launch)
  {
    hide Watch, Lawful, Exclusive, Emit, Uncovers, LastReport, Stable, Opening, ServiceTick, BeforeTick, MustTearDown;
    hide Iterate;
    BeforeTickKeeps(d, i);
    TickCovers(BeforeTick(d, i), TickTime(d, i), i.tick);
    IterateFields(d, i);
  }

  lemma IterateCovers(d: Demo, i: LoopInput)
    requires Stable(d) && Covered(d)
    ensures CoveredThroughout(d, i) <==> !IterationUncovers(d, i)
  {
    hide Covered, Uncovers, Stable, Opening, Woken, BeforeTick, Polled, Iterate, StartsUncovered, MustTearDown;
    WindowsCover(d, i);
    if Covered(BeforeTick(d, i)) {
      IterateEnds(d, i);
    }
  }

  lemma Waking(d: Demo, i: LoopInput)
    ensures BeforeTick(d, i) == Deliver(Polled(d, i), i.between)
  {
    hide PollWait, Deliver;
  }

  /** Every iteration that takes place is covered throughout. */
  ghost predicate AlwaysCovered(d: Demo, inputs: seq<LoopInput>)
    decreases |inputs|
  {
    inputs != [] && !d.stop ==>
      CoveredThroughout(d, inputs[0]) && AlwaysCovered(Iterate(d, inputs[0]), inputs[1..])
  }

  /** No iteration that takes place breaks the invariant. */
  ghost predicate NeverUncovers(d: Demo, inputs: seq<LoopInput>)
    decreases |inputs|
  {
    inputs != [] && !d.stop ==>
      !IterationUncovers(d, inputs[0]) && NeverUncovers(Iterate(d, inputs[0]), inputs[1..])
  }

  lemma {:induction false} LoopCovers(d: Demo, inputs: seq<LoopInput>)
    requires Stable(d) && Covered(d)
    ensures AlwaysCovered(d, inputs) <==> NeverUncovers(d, inputs)
    decreases |inputs|
  {
    hide Watch, Lawful, Exclusive, Stable, Iterate, IterationUncovers, Woken, BeforeTick;
    if inputs != [] && !d.stop {
      IterateKeeps(d, inputs[0]);
      IterateCovers(d, inputs[0]);
      if CoveredThroughout(d, inputs[0]) {
        LoopCovers(Iterate(d, inputs[0]), inputs[1..]);
      }
    }
  }

  /**
   Over a whole run a held stream is always connected or about to be restarted exactly when the first
   stream did not come up on a last report other than CONNECTED and no iteration breaks the invariant.
   */
  lemma RunCovers(camera: string, maxFails: nat, clock: int, b: Boot, inputs: seq<LoopInput>)
    requires 0 < clock
    ensures var d0 := NewDemo(camera, maxFails, clock);
            var (d, ok) := BootUp(d0, b);
            Covered(d) && (ok ==> AlwaysCovered(d, inputs)) <==>
            !StartsUncovered(d0, d, b.launch) && (ok ==> NeverUncovers(d, inputs))
  {
    hide Watch, Lawful, Exclusive, Stable, BootUp, NewDemo, AlwaysCovered, NeverUncovers, LastReport;
    NewDemoBoots(camera, maxFails, clock);
    var d0 := NewDemo(camera, maxFails, clock);
    BootCovers(d0, b);
    BootUpKeeps(d0, b);
    var (d, ok) := BootUp(d0, b);
    if Covered(d) {
      LoopCovers(d, inputs);
    }
  }

  // ---- A run that ends uncovered ----

  /** An IDLE report between two ticks, and nothing else. */
  function IdleLoop(): LoopInput {
    PlainLoop([]).(between := [OnConnect(Idle)])
  }

  lemma IdleNews(d: Demo)
    requires Streaming(d) && d.conn.Connected? && !d.wantConnect
    ensures var b := BeforeTick(d, IdleLoop());
            && b == d.(conn := Idle, trace := b.trace) && TickTime(d, IdleLoop()) == 1
  {
    hide Watch, Lawful, Exclusive, Emit;
    DeliverOne(d, OnConnect(Idle));
  }

  lemma TickIgnoresIdle(d: Demo)
    requires d.stream.Some? && d.conn.Idle? && !d.wantConnect && !d.wantStream && d.cam.present && !d.cam.restart
    ensures var r := ServiceTick(d, 1, PlainLoop([]).tick);
            r.stream == d.stream && r.conn.Idle? && !r.wantConnect && !r.wantStream
  {
    hide Watch, Lawful, Exclusive, Emit;
    DeliverOne(Opening(d, 1), OnConnect(Idle));
    TickUnfolds(d, 1, PlainLoop([]).tick);
  }

  lemma OpeningOfIdle(d: Demo)
    requires d.stream.Some? && !d.wantConnect && !d.wantStream && d.cam.present && !d.cam.restart
    ensures !Opening(d, 1).wantConnect && !Opening(d, 1).wantStream
  {
    hide Watch, Lawful, Exclusive, Emit;
  }

  /** The stream is held, the session unconnected, and neither a restart nor a reconnect is wanted. */
  lemma IdleReportUncovers()
    ensures var d := Run("/dev/video0", 0, 1, PlainBoot([]), [IdleLoop()]);
            !Covered(d) && !d.wantConnect && Stable(d) && Exclusive(d.trace)
  {
    hide Watch, Lawful, Exclusive, Emit, BootUp, Iterate, ServiceTick, BeforeTick, PlainBoot, Opening;
    StreamingAtBoot([]);
    StableAtBoot([]);
    var d := BootUp(NewDemo("/dev/video0", 0, 1), PlainBoot([])).0;
    var i := IdleLoop();
    IdleNews(d);
    TickIgnoresIdle(BeforeTick(d, i));
    IterateUnfolds(d, i);
    assert !IterationCollides(d, i) by {
      DeliverOne(Opening(BeforeTick(d, i), 1), OnConnect(Idle));
      OpeningOfIdle(BeforeTick(d, i));
    }
    IterateKeeps(d, i);
    assert [i][1..] == [];
    assert Loop(Iterate(d, i), []) == Iterate(d, i);
  }
}
