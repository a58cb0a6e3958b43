/**
 What each operation of the push demo achieves: which calls it makes, in which order, and what they
 lead to, told from its inputs and the state it finds. The laws of PushTrace say what may not happen;
 these say what does.
 */
module PushProgress {
  import opened Options
  import opened PushTrace
  import opened PushModel
  import opened PushSafety
  import opened PushRuns
  import opened PushCover

  /** A history without its connection reports: what the demo did, as opposed to what it was told. */
  function Deeds(t: seq<Event>): seq<Event> {
    if t == [] then [] else Deeds(Front(t)) + if Last(t).ConnReport? then [] else [Last(t)]
  }

  lemma EmitDeeds(d: Demo, e: Event)
    ensures Deeds(Emit(d, e).trace) == Deeds(d.trace) + if e.ConnReport? then [] else [e]
  {
    EmitAppends(d, e);
    assert Front(d.trace + [e]) == d.trace;
  }

  lemma HandleDeeds(d: Demo, cb: Callback)
    ensures Deeds(Handle(d, cb).trace) == Deeds(d.trace)
  {
    hide Emit, StoreConnState, HandleStreamState, Deeds;
    match cb
    case OnConnect(s) =>
      EmitDeeds(d, ConnReport(s));
      StoringIsSilent(Emit(d, ConnReport(s)), s);
    case OnStream(s) => StreamReportIsSilent(d, s);
  }

  lemma {:induction false} DeliverDeeds(d: Demo, cbs: seq<Callback>)
    ensures Deeds(Deliver(d, cbs).trace) == Deeds(d.trace)
    decreases |cbs|
  {
    hide Handle, Deeds;
    if cbs != [] {
      HandleDeeds(d, cbs[0]);
      DeliverDeeds(Handle(d, cbs[0]), cbs[1..]);
    }
  }

  /** The connection state after a window of callbacks that found it at s. */
  function StateAfter(s: ConnState, cbs: seq<Callback>): ConnState {
    if LastReport(cbs).Some? then LastReport(cbs).value else s
  }

  // ---- Signalling ----

  /** A connect works when it returns OK and the callbacks leave the connection up. */
  predicate Works(s: ConnState, a: Attempt) {
    a.rcOk && StateAfter(s, a.during).Connected?
  }

  /** What signalling leaves alone. */
  predicate SameStream(d: Demo, r: Demo) {
    r.stream == d.stream && r.cam == d.cam && r.nextStream == d.nextStream && r.handles == d.handles
  }

  lemma AttemptOutcome(d: Demo, a: Attempt)
    ensures var (r, ok) := AttemptSignalingConnect(d, a);
            && (ok <==> Works(d.conn, a)) && r.conn == StateAfter(d.conn, a.during)
            && Deeds(r.trace) == Deeds(d.trace) + [Connect]
            && r.nextConnect == d.nextConnect && SameStream(d, r)
  {
    hide Emit, Deliver, Deeds, LastReport, Asks;
    var e := Emit(d, Connect);
    assert e == d.(trace := e.trace);
    EmitDeeds(d, Connect);
    DeliverDeeds(e, a.during);
    DeliverOutcome(e, a.during);
    DeliverFrame(e, a.during);
  }

  /** Callbacks do not touch the backoffs, the camera or the clock. */
  lemma {:induction false} DeliverFrame(d: Demo, cbs: seq<Callback>)
    ensures var r := Deliver(d, cbs);
            r == d.(conn := r.conn, active := r.active, wantStream := r.wantStream, wantConnect := r.wantConnect,
                    connFails := r.connFails, trace := r.trace)
    decreases |cbs|
  {
    hide Handle;
    if cbs != [] {
      HandleFrame(d, cbs[0]);
      DeliverFrame(Handle(d, cbs[0]), cbs[1..]);
    }
  }

  lemma StoreFrame(d: Demo, s: ConnState)
    ensures var r := StoreConnState(d, s);
            r == d.(conn := r.conn, wantStream := r.wantStream, wantConnect := r.wantConnect, connFails := r.connFails)
  {
    match s
    case Connected =>
    case Disconnected =>
    case Failed =>
    case Idle =>
    case Connecting =>
  }

  lemma StreamFrame(d: Demo, s: StreamState)
    ensures var r := HandleStreamState(d, s); r == d.(active := r.active, wantStream := r.wantStream)
  {
  }

  lemma HandleFrame(d: Demo, cb: Callback)
    ensures var r := Handle(d, cb);
            r == d.(conn := r.conn, active := r.active, wantStream := r.wantStream, wantConnect := r.wantConnect,
                    connFails := r.connFails, trace := r.trace)
  {
    hide Emit, StoreConnState, HandleStreamState;
    match cb
    case OnConnect(s) =>
      var e := Emit(d, ConnReport(s));
      assert e == d.(trace := e.trace);
      StoreFrame(e, s);
    case OnStream(s) => StreamFrame(d, s);
  }

  /** The calls of a reconnect: none when connected or early, and a disconnect only between two attempts. */
  function ReconnectDeeds(d: Demo, now: int, r: Reconnect): seq<Event> {
    if d.conn.Connected? || now < d.nextConnect then []
    else if Works(d.conn, r.first) then [Connect, Reconnected]
    else [Connect, Disconnect, Connect] + [if Works(Idle, r.second) then Reconnected else RoundFailed(now)]
  }

  predicate Reconnects(d: Demo, now: int, r: Reconnect) {
    d.conn.Connected? || (d.nextConnect <= now && (Works(d.conn, r.first) || Works(Idle, r.second)))
  }

  /**
   A reconnect succeeds exactly when the session was connected, or the backoff was over and the first
   attempt worked, or the second did, which starts from IDLE after a disconnect.
   */
  lemma ReconnectOutcome(d: Demo, now: int, r: Reconnect)
    ensures var (d', ok) := TryReconnectSignaling(d, now, r);
            && (ok <==> Reconnects(d, now, r))
            && (ok ==> d'.conn.Connected? && !d'.wantConnect && d'.nextConnect == d.nextConnect)
            && (ok && !d.conn.Connected? ==> d'.connFails == 0)
            && (!ok && d.nextConnect <= now ==> d'.nextConnect == now + CONNECT_BACKOFF) && SameStream(d, d')
            && Deeds(d'.trace) == Deeds(d.trace) + ReconnectDeeds(d, now, r)
  {
    hide Emit, Deliver, Deeds, Works, AttemptSignalingConnect, RetryAfterDisconnect, ConnectSucceeded;
    if !d.conn.Connected? && d.nextConnect <= now {
      AttemptOutcome(d, r.first);
      WorksConnected(d.conn, r.first);
      var (d1, ok1) := AttemptSignalingConnect(d, r.first);
      if ok1 {
        SucceededOutcome(d1);
      } else {
        RetryOutcome(d1, now, r);
      }
    }
  }

  lemma WorksConnected(s: ConnState, a: Attempt)
    ensures Works(s, a) ==> StateAfter(s, a.during).Connected?
  {
  }

  lemma SucceededOutcome(d: Demo)
    ensures var r := ConnectSucceeded(d);
            && r == d.(connFails := 0, wantConnect := false, trace := r.trace) && SameStream(d, r)
            && Deeds(r.trace) == Deeds(d.trace) + [Reconnected]
  {
    hide Emit, Deeds;
    EmitDeeds(d, Reconnected);
    assert Emit(d, Reconnected) == d.(trace := Emit(d, Reconnected).trace);
  }

  lemma ResetOutcome(d: Demo, during: seq<Callback>)
    ensures var r := ResetConnection(d, during);
            && r.conn == Idle && r.nextConnect == d.nextConnect && SameStream(d, r)
            && Deeds(r.trace) == Deeds(d.trace) + [Disconnect]
  {
    hide Emit, Deliver, Deeds;
    EmitDeeds(d, Disconnect);
    var e := Emit(d, Disconnect);
    assert e == d.(trace := e.trace);
    DeliverDeeds(e, during);
    DeliverFrame(e, during);
  }

  lemma RoundOutcome(d: Demo, now: int)
    ensures var r := RoundFails(d, now);
            && r.nextConnect == now + CONNECT_BACKOFF && SameStream(d, r)
            && Deeds(r.trace) == Deeds(d.trace) + [RoundFailed(now)]
  {
    hide Emit, Deeds, RoundFails;
    RoundFailsFields(d, now);
    EmitDeeds(d, RoundFailed(now));
    assert Emit(d, RoundFailed(now)) == d.(trace := Emit(d, RoundFailed(now)).trace);
  }

  lemma RetryOutcome(d: Demo, now: int, r: Reconnect)
    ensures var (d', ok) := RetryAfterDisconnect(d, now, r);
            && (ok <==> Works(Idle, r.second))
            && (ok ==> d'.conn.Connected? && !d'.wantConnect && d'.connFails == 0 && d'.nextConnect == d.nextConnect)
            && (!ok ==> d'.nextConnect == now + CONNECT_BACKOFF) && SameStream(d, d')
            && Deeds(d'.trace) ==
               Deeds(d.trace) + [Disconnect, Connect] + [if ok then Reconnected else RoundFailed(now)]
  {
    hide Emit, Deliver, Deeds, AttemptSignalingConnect, ConnectSucceeded, RoundFails, ResetConnection, Works;
    ResetOutcome(d, r.onDisconnect);
    var d1 := ResetConnection(d, r.onDisconnect);
    AttemptOutcome(d1, r.second);
    WorksConnected(Idle, r.second);
    var (d2, ok) := AttemptSignalingConnect(d1, r.second);
    SucceededOutcome(d2);
    RoundOutcome(d2, now);
  }

  // ---- The stream ----

  /** The calls of a start attempt, given the clock reading at its end. */
  function StartDeeds(d: Demo, l: Launch): seq<Event> {
    var failed := [StartFailed(d.clock + l.delay)];
    if d.stream.Some? || !d.conn.Connected? then []
    else if !l.createOk then failed
    else
      [Create(d.handles, d.source), Start(d.handles, l.startOk)]
      + if l.startOk then [] else [Destroy(d.handles)] + failed
  }

  lemma FailedOutcome(d: Demo, delay: nat)
    ensures var r := LaunchFailed(d, delay);
            && r.stream == d.stream && r.wantStream && r.streamFails == d.streamFails + 1
            && r.clock == d.clock + delay && r.nextStream == r.clock + STREAM_BACKOFF && r.cam == d.cam
            && Deeds(r.trace) == Deeds(d.trace) + [StartFailed(d.clock + delay)]
  {
    hide Emit, Deeds;
    var n := Wait(NoteStreamStartFailure(d.(wantStream := true)), delay);
    EmitDeeds(n, StartFailed(n.clock));
    assert Emit(n, StartFailed(n.clock)) == n.(trace := Emit(n, StartFailed(n.clock)).trace);
  }

  lemma LaunchingOutcome(d: Demo, l: Launch)
    ensures var r := Launching(d, l);
            && r.stream == d.stream && r.clock == d.clock && r.cam == d.cam && r.streamFails == d.streamFails
            && Deeds(r.trace) == Deeds(d.trace) + [Create(d.handles, d.source)]
  {
    hide Emit, Deliver, Deeds;
    var c := d.(handles := d.handles + 1);
    EmitDeeds(c, Create(d.handles, d.source));
    var e := Emit(c, Create(d.handles, d.source));
    assert e == c.(trace := e.trace);
    DeliverFrame(e, l.onCreate);
    DeliverDeeds(e, l.onCreate);
    DeliverFrame(Deliver(e, l.onCreate), l.onStart);
    DeliverDeeds(Deliver(e, l.onCreate), l.onStart);
  }

  lemma RefusedOutcome(d: Demo, h: nat, l: Launch)
    ensures var r := StartRefused(d, h, l);
            && r.stream == d.stream && r.wantStream && r.streamFails == d.streamFails + 1
            && r.clock == d.clock + l.delay && r.nextStream == r.clock + STREAM_BACKOFF && r.cam == d.cam
            && Deeds(r.trace) == Deeds(d.trace) + [Start(h, false), Destroy(h), StartFailed(d.clock + l.delay)]
  {
    hide Emit, Deliver, Deeds, LaunchFailed;
    EmitDeeds(d, Start(h, false));
    var e1 := Emit(d, Start(h, false));
    assert e1 == d.(trace := e1.trace);
    EmitDeeds(e1, Destroy(h));
    var e2 := Emit(e1, Destroy(h));
    assert e2 == e1.(trace := e2.trace);
    DeliverFrame(e2, l.onDestroy);
    DeliverDeeds(e2, l.onDestroy);
    FailedOutcome(Deliver(e2, l.onDestroy), l.delay);
  }

  lemma AcceptedOutcome(d: Demo, h: nat)
    ensures var r := StartAccepted(d, h);
            && r.stream == Some(h) && r.active && !r.wantStream && r.streamFails == 0 && r.clock == d.clock
            && r.cam == d.cam.(restart := false) && Deeds(r.trace) == Deeds(d.trace) + [Start(h, true)]
  {
    hide Emit, Deeds;
    EmitDeeds(d, Start(h, true));
    assert Emit(d, Start(h, true)) == d.(trace := Emit(d, Start(h, true)).trace);
  }

  /**
   A start attempt brings a stream up exactly when the session is connected and both calls succeed. A
   refused one counts a failure, wants a restart, and opens the backoff from the clock read at its end.
   */
  lemma StartOutcome(d: Demo, l: Launch)
    ensures var (d', ok) := TryStartStream(d, l);
            && (ok <==> d.stream.Some? || (d.conn.Connected? && l.createOk && l.startOk))
            && Deeds(d'.trace) == Deeds(d.trace) + StartDeeds(d, l)
            && (d.stream.Some? || !d.conn.Connected? ==> d' == d)
            && (d.stream.None? && ok ==>
                  d'.stream == Some(d.handles) && d'.active && !d'.wantStream && d'.streamFails == 0 && !d'.cam.restart)
            && (!ok ==> d'.stream.None?)
            && (!ok && d.conn.Connected? ==>
                  && d'.wantStream && d'.streamFails == d.streamFails + 1 && d'.cam == d.cam
                  && d'.clock == d.clock + l.delay && d'.nextStream == d'.clock + STREAM_BACKOFF)
  {
    hide Emit, Deliver, Deeds, Launching, LaunchFailed, StartRefused, StartAccepted;
    if d.stream.None? && d.conn.Connected? {
      if !l.createOk {
        DeliverFrame(d, l.onCreate);
        DeliverDeeds(d, l.onCreate);
        FailedOutcome(Deliver(d, l.onCreate), l.delay);
      } else {
        LaunchingOutcome(d, l);
        RefusedOutcome(Launching(d, l), d.handles, l);
        AcceptedOutcome(Launching(d, l), d.handles);
      }
    }
  }

  lemma TeardownOutcome(d: Demo, i: TickInput)
    requires d.stream.Some?
    ensures var r := TeardownStream(d, i);
            && r.stream.None? && r.wantStream && r.cam == d.cam
            && r.clock == d.clock + i.delay && r.nextStream == r.clock + STREAM_BACKOFF
            && Deeds(r.trace) ==
               Deeds(d.trace) + [Stop(d.stream.value), Destroy(d.stream.value), Teardown(d.clock + i.delay)]
  {
    hide Emit, Deliver, Deeds;
    var h := d.stream.value;
    var d0 := d.(stream := None, active := false);
    StoppedOutcome(d0, h, i.onStop, i.onDestroy);
    hide StopAndDestroy, BackOff;
    var d1 := StopAndDestroy(d0, h, i.onStop, i.onDestroy);
    assert TeardownStream(d, i) == BackOff(d1.(wantStream := true), i.delay, true);
    hide TeardownStream;
    BackOffOutcome(d1.(wantStream := true), i.delay);
  }

  lemma BackOffOutcome(d: Demo, delay: nat)
    ensures var r := BackOff(d, delay, true);
            && r == d.(clock := d.clock + delay, nextStream := d.clock + delay + STREAM_BACKOFF, trace := r.trace)
            && Deeds(r.trace) == Deeds(d.trace) + [Teardown(d.clock + delay)]
  {
    hide Emit, Deeds;
    var w := Wait(d, delay);
    EmitDeeds(w, Teardown(w.clock));
    assert Emit(w, Teardown(w.clock)) == w.(trace := Emit(w, Teardown(w.clock)).trace);
  }

  lemma StoppedOutcome(d: Demo, h: nat, onStop: seq<Callback>, onDestroy: seq<Callback>)
    ensures var r := StopAndDestroy(d, h, onStop, onDestroy);
            && r.stream == d.stream && r.clock == d.clock && r.cam == d.cam
            && Deeds(r.trace) == Deeds(d.trace) + [Stop(h), Destroy(h)]
  {
    hide Emit, Deliver, Deeds;
    EmitDeeds(d, Stop(h));
    var e1 := Emit(d, Stop(h));
    assert e1 == d.(trace := e1.trace);
    DeliverFrame(e1, onStop);
    DeliverDeeds(e1, onStop);
    var d1 := Deliver(e1, onStop);
    EmitDeeds(d1, Destroy(h));
    var e2 := Emit(d1, Destroy(h));
    assert e2 == d1.(trace := e2.trace);
    DeliverFrame(e2, onDestroy);
    DeliverDeeds(e2, onDestroy);
  }

  // ---- The camera ----

  /** A udev event that concerns a capture node. */
  predicate Concerns(e: UdevEvent, action: string, node: string) {
    e.action == Some(action) && e.devnode == Some(node) && e.subsystem == Some("video4linux") && e.capture
  }

  /** The event says that the followed camera is now at another node, and that node opens. */
  predicate Migrates(d: Demo, e: UdevEvent) {
    && e.devnode.Some? && Concerns(e, "add", e.devnode.value) && e.devnode.value !in {"", d.cam.path}
    && d.cam.identity != "" && e.identity == d.cam.identity && e.ready
  }

  /**
   What one udev event does. A removal of the followed node ends with the camera absent, an add of it
   with the camera present, each an edge if it changes something; an add of another node moves the demo
   there exactly if it carries the recorded identity and opens; any other event changes nothing.
   */
  lemma UdevOutcome(d: Demo, e: UdevEvent)
    ensures var r := HandleUdevDevice(d, e);
            var at := d.clock + e.delay;
            && r.clock == at
            && (Concerns(e, "remove", d.cam.path) ==>
                  && !r.cam.present && r.source == d.source
                  && (d.cam.present ==> r.cam.restart && r.trace == d.trace + [Presence(false, at)])
                  && (!d.cam.present ==> r.cam == d.cam && r.trace == d.trace))
            && (Concerns(e, "add", d.cam.path) ==>
                  && r.cam.present && r.source == d.source
                  && (!d.cam.present ==>
                        r.cam.restart && r.cam.since == at && r.trace == d.trace + [Presence(true, at)])
                  && (d.cam.present ==> r.cam == d.cam && r.trace == d.trace))
            && (Migrates(d, e) ==>
                  && r.cam.path == r.source == e.devnode.value && r.cam.present && r.cam.since == at
                  && r.cam.restart && r.wantStream && r.trace == d.trace + [Moved(e.devnode.value, e.identity, at)])
            && (!Concerns(e, "remove", d.cam.path) && !Concerns(e, "add", d.cam.path) && !Migrates(d, e) ==>
                  r == d.(clock := at))
  {
    hide Emit, Deeds, ApplyPresence, AdoptDevPath, HandleUdevDevice;
    var w := d.(clock := d.clock + e.delay);
    UdevShape(d, e);
    hide Concerns, Migrates, Carries;
    PresenceOutcome(w, false, w.clock);
    PresenceOutcome(w, true, w.clock);
    if Carries(d, e) {
      AdoptOutcome(w, e.devnode.value, e.identity, w.clock);
    }
  }

  /** An add of another node that carries the recorded identity and opens. */
  predicate Carries(d: Demo, e: UdevEvent) {
    && e.devnode.Some? && Concerns(e, "add", e.devnode.value) && e.devnode.value != d.cam.path
    && d.cam.identity != "" && e.identity == d.cam.identity && e.ready
  }

  lemma UdevShape(d: Demo, e: UdevEvent)
    ensures var w := d.(clock := d.clock + e.delay);
            HandleUdevDevice(d, e) ==
            if Concerns(e, "remove", d.cam.path) then ApplyPresence(w, false, w.clock)
            else if Concerns(e, "add", d.cam.path) then ApplyPresence(w, true, w.clock)
            else if Carries(d, e) then AdoptDevPath(w, e.devnode.value, e.identity, w.clock)
            else w
    ensures !(Concerns(e, "remove", d.cam.path) && Concerns(e, "add", d.cam.path))
    ensures Carries(d, e) ==> !Concerns(e, "remove", d.cam.path) && !Concerns(e, "add", d.cam.path)
    ensures Carries(d, e) ==> e.devnode.Some? && e.devnode.value != d.cam.path
    ensures Migrates(d, e) <==> Carries(d, e) && e.devnode.value != ""
  {
    hide ApplyPresence, AdoptDevPath;
    assert "remove" != "add";
  }

  /** An edge, and only an edge, is recorded with its instant and asks for a restart. */
  lemma PresenceOutcome(d: Demo, present: bool, at: int)
    ensures var r := ApplyPresence(d, present, at);
            && (present == d.cam.present ==> r == d)
            && (present != d.cam.present ==>
                  && r.trace == d.trace + [Presence(present, at)]
                  && r == d.(cam := d.cam.(present := present, since := if present then at else 0, restart := true),
                             trace := r.trace))
  {
    EmitAppends(d, Presence(present, at));
    hide Emit;
    assert Emit(d, Presence(present, at)) == d.(trace := Emit(d, Presence(present, at)).trace);
  }

  lemma AdoptOutcome(d: Demo, path: string, identity: string, at: int)
    ensures var r := AdoptDevPath(d, path, identity, at);
            && (path == "" || path == d.cam.path ==> r == d)
            && (path != "" && path != d.cam.path ==>
                  && r.trace == d.trace + [Moved(path, identity, at)]
                  && r == d.(cam := d.cam.(path := path, present := true, since := at, restart := true),
                             source := path, wantStream := true, trace := r.trace))
  {
    EmitAppends(d, Moved(path, identity, at));
    hide Emit;
    assert Emit(d, Moved(path, identity, at)) == d.(trace := Emit(d, Moved(path, identity, at)).trace);
  }

  lemma {:induction false} DrainConcat(d: Demo, a: seq<UdevEvent>, b: seq<UdevEvent>)
    ensures Drain(d, a + b) == Drain(Drain(d, a), b)
    decreases |a|
  {
    hide HandleUdevDevice;
    if a == [] {
      assert a + b == b;
    } else {
      assert (a + b)[1..] == a[1..] + b;
      DrainConcat(HandleUdevDevice(d, a[0]), a[1..], b);
    }
  }

  lemma DrainOne(d: Demo, e: UdevEvent)
    ensures Drain(d, [e]) == HandleUdevDevice(d, e) && Drain(d, []) == d
  {
    hide HandleUdevDevice;
    assert [e][1..] == [];
    assert Drain(HandleUdevDevice(d, e), []) == HandleUdevDevice(d, e);
  }

  /** Events do not touch the poll's own bookkeeping. */
  lemma UdevFrame(d: Demo, e: UdevEvent)
    ensures var r := HandleUdevDevice(d, e);
            && r.cam.lastReconcile == d.cam.lastReconcile && r.cam.lastProbe == d.cam.lastProbe
            && r.cam.useUdev == d.cam.useUdev && r.cam.identity == d.cam.identity && r.stream == d.stream
  {
    hide Emit, ApplyPresence, AdoptDevPath, HandleUdevDevice;
    var w := d.(clock := d.clock + e.delay);
    UdevShape(d, e);
    hide Concerns, Migrates, Carries;
    PresenceOutcome(w, false, w.clock);
    PresenceOutcome(w, true, w.clock);
    if Carries(d, e) {
      AdoptOutcome(w, e.devnode.value, e.identity, w.clock);
    }
  }

  lemma {:induction false} DrainFrame(d: Demo, events: seq<UdevEvent>)
    ensures var r := Drain(d, events);
            && r.cam.lastReconcile == d.cam.lastReconcile && r.cam.lastProbe == d.cam.lastProbe
            && r.cam.useUdev == d.cam.useUdev && r.cam.identity == d.cam.identity && r.stream == d.stream
    decreases |events|
  {
    hide HandleUdevDevice;
    if events != [] {
      UdevFrame(d, events[0]);
      DrainFrame(HandleUdevDevice(d, events[0]), events[1..]);
    }
  }

  lemma MillisPassed(ns: int, ms: nat)
    ensures ToMs(ns) >= ms <==> ns >= ms * 1_000_000 || (ms == 0 && ns > -1_000_000)
  {
  }

  /**
   With udev a poll first takes in every event that arrived. Five seconds after the last look it also
   looks at the node itself: a held stream whose camera is gone unannounced is noticed there.
   */
  lemma UdevPollOutcome(d: Demo, now: int, held: bool, p: Poll)
    requires d.cam.useUdev
    ensures var e := if p.readable then Drain(d, p.events) else d;
            var r := PollWait(d, now, held, p);
            var due := 5_000_000_000 <= now - d.cam.lastReconcile;
            var gone := held && e.cam.present && !(e.cam.path != "" && p.accessOk);
            && (!due ==> r == e)
            && (due ==>
                  && r.cam.lastReconcile == now && r.source == e.source
                  && (r.cam.present <==> e.cam.present && !gone)
                  && r.trace == e.trace + (if gone then [Presence(false, now)] else [])
                  && (gone ==> r.cam.restart))
  {
    hide Emit, Drain, ApplyPresence, ToMs;
    DrainFrame(d, p.events);
    var e := if p.readable then Drain(d, p.events) else d;
    MillisPassed(now - d.cam.lastReconcile, 5000);
    PresenceOutcome(e.(cam := e.cam.(lastReconcile := now)), false, now);
  }

  /** Without udev the node is probed every two seconds, and the record becomes what the probe found. */
  lemma ProbePollOutcome(d: Demo, now: int, held: bool, p: Poll)
    requires !d.cam.useUdev
    ensures var r := PollWait(d, now, held, p);
            var due := 2_000_000_000 <= now - d.cam.lastProbe;
            var there := d.cam.path != "" && p.accessOk;
            && (!due ==> r == d)
            && (due ==>
                  && r.cam.lastProbe == now && r.cam.present == there && r.source == d.source
                  && r.trace == d.trace + (if there != d.cam.present then [Presence(there, now)] else [])
                  && (there != d.cam.present ==> r.cam.restart))
  {
    hide Emit, ApplyPresence, ToMs;
    MillisPassed(now - d.cam.lastProbe, 2000);
    PresenceOutcome(d.(cam := d.cam.(lastProbe := now)), d.cam.path != "" && p.accessOk, now);
  }

  /** The first look records identity and presence, and a missing camera asks for a restart. */
  lemma SyncOutcome(d: Demo, identity: string, ready: bool, delay: nat)
    ensures var r := SyncInitialPresence(d, identity, ready, delay);
            var at := d.clock + delay;
            var there := d.cam.path != "" && ready;
            && r.clock == at && r.cam.identity == identity && r.cam.path == d.cam.path && r.cam.present == there
            && (there ==> r.cam.since == at) && (r.cam.restart <==> d.cam.restart || !there)
            && r.trace == d.trace + [Synced(identity, there, at)]
  {
    var w := Wait(d, delay);
    var there := d.cam.path != "" && ready;
    EmitAppends(w, Synced(identity, there, w.clock));
    hide Emit;
    assert Emit(w, Synced(identity, there, w.clock)) == w.(trace := Emit(w, Synced(identity, there, w.clock)).trace);
  }

  /** The monitor starts its intervals at one reading of the clock and takes in what udev already has. */
  lemma MonitorOutcome(d: Demo, opens: bool, delay: nat, drained: seq<UdevEvent>)
    ensures var r := StartMonitor(d, opens, delay, drained);
            var at := d.clock + delay;
            var cam := d.cam.(useUdev := opens, lastProbe := at, lastReconcile := at);
            && r == Drain(d.(clock := at, cam := cam), if opens then drained else [])
            && r.cam.useUdev == opens && r.cam.lastProbe == r.cam.lastReconcile == at
            && r.cam.identity == d.cam.identity
  {
    hide HandleUdevDevice;
    var at := d.clock + delay;
    var w := d.(clock := at, cam := d.cam.(useUdev := opens, lastProbe := at, lastReconcile := at));
    DrainFrame(w, drained);
    DrainFrame(w, []);
  }

  // ---- One tick ----

  lemma OpeningOutcome(d: Demo, now: int)
    ensures var o := Opening(d, now);
            && o == d.(wantStream := d.wantStream || d.cam.restart, cam := d.cam.(restart := false), trace := o.trace)
            && Deeds(o.trace) == Deeds(d.trace) + [TickBegin(now)] + if d.cam.restart then [Noticed] else []
  {
    hide Emit, Deeds;
    var e := Emit(d, TickBegin(now));
    assert e == d.(trace := e.trace);
    EmitDeeds(d, TickBegin(now));
    EmitDeeds(e, Noticed);
    assert Emit(e, Noticed) == e.(trace := Emit(e, Noticed).trace);
  }

  /** The node is opened for a check once the camera has been there for the stable time. */
  function CheckDeeds(d: Demo, now: int, i: TickInput): seq<Event> {
    if d.cam.present && STABLE <= now - d.cam.since then [ReadyCheck(d.cam.path, d.cam.path != "" && i.openOk)] else []
  }

  /** What the last part of a tick does, from the state after the reconnect. */
  function RestDeeds(d: Demo, now: int, i: TickInput): seq<Event> {
    if !d.wantStream && d.stream.Some? then []
    else
      CheckDeeds(d, now, i)
      + if !ReadyForStream(d, now, i) then []
        else if d.conn.Connected? then StartDeeds(d, i.launch)
        else ReconnectDeeds(d, now, i.late)
  }

  lemma RestShape(d: Demo, now: int, i: TickInput)
    requires d.cam.present ==> d.cam.since != 0
    ensures var c := Emit(d, ReadyCheck(d.cam.path, d.cam.path != "" && i.openOk));
            MaybeStart(d, now, i) ==
            if (!d.wantStream && d.stream.Some?) || !d.cam.present || now - d.cam.since < STABLE then d
            else if !ReadyForStream(d, now, i) then c
            else if d.conn.Connected? then TryStartStream(c, i.launch).0
            else TryReconnectSignaling(c.(wantConnect := true), now, i.late).0
  {
    var c := Emit(d, ReadyCheck(d.cam.path, d.cam.path != "" && i.openOk));
    assert c == d.(trace := c.trace);
    CheckOutcome(d, now, i.openOk);
    hide Emit, IsStableAndReady, TryStartStream, TryReconnectSignaling;
  }

  lemma RestOutcome(d: Demo, now: int, i: TickInput)
    requires d.cam.present ==> d.cam.since != 0
    ensures var r := MaybeStart(d, now, i);
            && (d.stream.Some? ==> r.stream == d.stream)
            && (d.stream.None? ==>
                  (r.stream.Some? <==>
                     ReadyForStream(d, now, i) && d.conn.Connected? && i.launch.createOk && i.launch.startOk))
            && (r.stream.Some? && d.stream.None? ==> r.stream == Some(d.handles))
            && Deeds(r.trace) == Deeds(d.trace) + RestDeeds(d, now, i)
  {
    hide Emit, Deeds, MaybeStart, TryStartStream, TryReconnectSignaling, StartDeeds, ReconnectDeeds, Reconnects;
    RestShape(d, now, i);
    var check := ReadyCheck(d.cam.path, d.cam.path != "" && i.openOk);
    EmitDeeds(d, check);
    var c := Emit(d, check);
    assert c == d.(trace := c.trace);
    if ReadyForStream(d, now, i) && (d.wantStream || d.stream.None?) {
      SameDeeds(c, d, now, i);
      if d.conn.Connected? {
        StartOutcome(c, i.launch);
      } else {
        SameDeeds(c.(wantConnect := true), d, now, i);
        ReconnectOutcome(c.(wantConnect := true), now, i.late);
      }
    }
  }

  lemma SameDeeds(c: Demo, d: Demo, now: int, i: TickInput)
    requires c == d.(trace := c.trace, wantConnect := c.wantConnect)
    ensures StartDeeds(c, i.launch) == StartDeeds(d, i.launch)
    ensures ReconnectDeeds(c, now, i.late) == ReconnectDeeds(d, now, i.late)
  {
  }

  /** The state after the callbacks that follow the teardown checks, and after the reconnect that may follow them. */
  ghost function AfterGap(d: Demo, now: int, i: TickInput): Demo { Deliver(Opening(d, now), i.gap) }

  ghost function AfterReconnect(d: Demo, now: int, i: TickInput): Demo {
    var e := AfterGap(d, now, i);
    if e.wantConnect then TryReconnectSignaling(e, now, i.reconnect).0 else e
  }

  /**
   What a tick does. One that finds a restart wanted or the camera gone takes the held stream down and
   does no more. Any other keeps the stream it finds; after the callbacks it reconnects if that is wanted,
   and then, holding nothing, brings a stream up exactly if the camera is stable and its node opens, the
   start backoff is over, the session is connected, and create and start succeed.
   */
  lemma TickOutcome(d: Demo, now: int, i: TickInput)
    requires Stable(d) && Timely(d, now)
    ensures var o, e, g := Opening(d, now), AfterGap(d, now, i), AfterReconnect(d, now, i);
            var d' := ServiceTick(d, now, i);
            && (MustTearDown(o) ==>
                  && d'.stream.None?
                  && Deeds(d'.trace) == Deeds(o.trace)
                       + [Stop(d.stream.value), Destroy(d.stream.value), Teardown(o.clock + i.delay), TickEnd])
            && (!MustTearDown(o) && d.stream.Some? ==> d'.stream == d.stream)
            && (d.stream.None? ==>
                  (d'.stream.Some? <==>
                     ReadyForStream(g, now, i) && g.conn.Connected? && i.launch.createOk && i.launch.startOk))
            && (!MustTearDown(o) ==>
                  && Deeds(g.trace) ==
                     Deeds(o.trace) + (if e.wantConnect then ReconnectDeeds(e, now, i.reconnect) else [])
                  && (e.wantConnect && Reconnects(e, now, i.reconnect) ==> g.conn.Connected?)
                  && Deeds(d'.trace) == Deeds(g.trace) + RestDeeds(g, now, i) + [TickEnd])
  {
    hide Watch, Lawful, Exclusive, Emit, Deeds, Deliver, MaybeStart, TryReconnectSignaling, TeardownStream;
    hide RestDeeds, ReconnectDeeds, Reconnects, ReadyForStream, Opening;
    OpeningOutcome(d, now);
    OpeningKeeps(d, now);
    var o := Opening(d, now);
    TickUnfolds(d, now, i);
    EmitDeeds(TickBody(o, now, i), TickEnd);
    if MustTearDown(o) {
      TeardownOutcome(o, i);
    } else {
      DeliverDeeds(o, i.gap);
      DeliverFrame(o, i.gap);
      var e := Deliver(o, i.gap);
      ReconnectOutcome(e, now, i.reconnect);
      var g := AfterReconnect(d, now, i);
      PresenceHasInstant(o);
      assert g.cam == o.cam;
      RestOutcome(g, now, i);
    }
  }

  // ---- The program ----

  /** Every five seconds the statistics of a held stream are read, and the interval starts anew either way. */
  lemma StatsOutcome(d: Demo, now: int)
    ensures var r := PrintStats(d, now);
            var due := 5_000_000_000 <= now - d.lastStats;
            && (!due ==> r == d)
            && (due ==>
                  && r == d.(lastStats := now, trace := r.trace)
                  && r.trace == d.trace + if d.stream.Some? then [Stats(d.stream.value)] else [])
  {
    if d.stream.Some? {
      var e := d.(lastStats := now);
      EmitAppends(e, Stats(d.stream.value));
      assert Emit(e, Stats(d.stream.value)) == e.(trace := Emit(e, Stats(d.stream.value)).trace);
    }
    hide Emit;
  }

  /** The loop makes an iteration for every input until a stop is requested. */
  lemma {:induction false} LoopConcat(d: Demo, a: seq<LoopInput>, b: seq<LoopInput>)
    ensures Loop(d, a + b) == Loop(Loop(d, a), b)
    decreases |a|
  {
    hide Iterate;
    if a == [] {
      assert a + b == b;
    } else if !d.stop {
      assert (a + b)[1..] == a[1..] + b;
      LoopConcat(Iterate(d, a[0]), a[1..], b);
    }
  }

  lemma LoopOne(d: Demo, i: LoopInput)
    ensures Loop(d, [i]) == if d.stop then d else Iterate(d, i)
  {
    hide Iterate;
    assert [i][1..] == [];
    assert Loop(Iterate(d, i), []) == Iterate(d, i);
  }

  /** The camera part of start-up: a first look, the monitor, one poll, and the restart request it may leave. */
  lemma BootCameraOutcome(d: Demo, b: Boot)
    ensures var s := SyncInitialPresence(d, b.identity, b.ready, b.syncDelay);
            var m := StartMonitor(s, b.udevOpens, b.startDelay, b.drained);
            var w := Wait(m, b.pollDelay);
            var p := PollWait(w, w.clock, false, b.poll);
            var r := BootCamera(d, b);
            && r.cam == p.cam.(restart := false) && r.stream == p.stream && r.clock == p.clock
            && (p.cam.restart ==> r.wantStream) && r.conn == StateAfter(p.conn, b.between)
            && Deeds(r.trace) == Deeds(p.trace) + if p.cam.restart then [Noticed] else []
  {
    hide Emit, Deeds, Deliver, SyncInitialPresence, StartMonitor, PollWait, LastReport, Asks;
    var s := SyncInitialPresence(d, b.identity, b.ready, b.syncDelay);
    var m := StartMonitor(s, b.udevOpens, b.startDelay, b.drained);
    var w := Wait(m, b.pollDelay);
    var p := PollWait(w, w.clock, false, b.poll);
    NoticeOutcome(p);
    DeliverDeeds(Notice(p), b.between);
    DeliverFrame(Notice(p), b.between);
    DeliverOutcome(Notice(p), b.between);
    hide Notice;
  }

  lemma NoticeOutcome(d: Demo)
    ensures var r := Notice(d);
            && r == d.(wantStream := d.wantStream || d.cam.restart, cam := d.cam.(restart := false), trace := r.trace)
            && Deeds(r.trace) == Deeds(d.trace) + if d.cam.restart then [Noticed] else []
  {
    EmitDeeds(d, Noticed);
    assert Emit(d, Noticed) == d.(trace := Emit(d, Noticed).trace);
    hide Emit, Deeds;
  }

  /** Start-up goes on exactly if the first connect works, and then tries a stream once, whatever the camera does. */
  lemma BootOutcome(d: Demo, b: Boot)
    requires Booting(d)
    ensures var (d', ok) := BootUp(d, b);
            var c := BootCamera(AttemptSignalingConnect(d, b.connect).0, b);
            && (ok <==> Works(d.conn, b.connect))
            && (!ok ==> d'.stream.None? && Deeds(d'.trace) == Deeds(d.trace) + [Connect])
            && (ok ==>
                  && (d'.stream.Some? <==> c.conn.Connected? && b.launch.createOk && b.launch.startOk)
                  && Deeds(d'.trace) == Deeds(c.trace) + StartDeeds(c, b.launch)
                  && d'.cam.path == c.cam.path && d'.cam.present == c.cam.present && d'.lastStats == d'.clock)
  {
    hide Watch, Lawful, Exclusive, Emit, Deeds, Deliver;
    hide BootCamera, TryStartStream, AttemptSignalingConnect, StartDeeds, Works;
    AttemptKeeps(d, b.connect, NoHandle);
    AttemptOutcome(d, b.connect);
    var (d1, ok) := AttemptSignalingConnect(d, b.connect);
    BootCameraKeeps(d1, b);
    StartOutcome(BootCamera(d1, b), b.launch);
    StartKeepsCamera(BootCamera(d1, b), b.launch);
  }

  lemma StartKeepsCamera(d: Demo, l: Launch)
    ensures var r := TryStartStream(d, l).0; r.cam.path == d.cam.path && r.cam.present == d.cam.present
  {
    hide Emit, Deliver, Deeds, Launching, LaunchFailed, StartRefused, StartAccepted;
    DeliverFrame(d, l.onCreate);
    FailedOutcome(Deliver(d, l.onCreate), l.delay);
    LaunchingOutcome(d, l);
    RefusedOutcome(Launching(d, l), d.handles, l);
    AcceptedOutcome(Launching(d, l), d.handles);
  }

  /** Shutdown stops and destroys what is held and then disconnects. */
  lemma ShutdownOutcome(d: Demo, e: Exit)
    ensures var r := Shutdown(d, e);
            && r.stream.None? && r.shuttingDown && !r.cam.useUdev
            && Deeds(r.trace) ==
               Deeds(d.trace) + (if d.stream.Some? then [Stop(d.stream.value), Destroy(d.stream.value)] else [])
                 + [Disconnect]
  {
    hide Emit, Deliver, Deeds, StopAndDestroy;
    var d0 := d.(shuttingDown := true, cam := d.cam.(useUdev := false));
    if d.stream.Some? {
      StoppedOutcome(d0, d.stream.value, e.onStop, e.onDestroy);
      StoppedFlag(d0, d.stream.value, e.onStop, e.onDestroy);
    }
    var d1 := StopStreamForExit(d0, e);
    hide StopStreamForExit;
    EmitDeeds(d1, Disconnect);
    var e1 := Emit(d1, Disconnect);
    assert e1 == d1.(trace := e1.trace);
    DeliverDeeds(e1, e.onDisconnect);
    DeliverFrame(e1, e.onDisconnect);
  }

  lemma StoppedFlag(d: Demo, h: nat, onStop: seq<Callback>, onDestroy: seq<Callback>)
    ensures StopAndDestroy(d, h, onStop, onDestroy).shuttingDown == d.shuttingDown
  {
    hide Deliver;
    DeliverFrame(Emit(d, Stop(h)), onStop);
    DeliverFrame(Emit(Deliver(Emit(d, Stop(h)), onStop), Destroy(h)), onDestroy);
  }
}
