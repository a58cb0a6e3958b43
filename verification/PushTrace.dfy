/**
 The observable history of one run of the push demo, and the laws such a history obeys.

 `Event`s are what an outside observer of the session and of the camera monitor sees. `Seen` is
 what that observer remembers, and `Allowed` says which event may come next. None of this refers
 to the fields or the control flow of the session: it is the reference the code is compared with.
 Instants and durations are nanoseconds of the steady clock.
 */
module PushTrace {
  import opened Options

  datatype ConnState = Idle | Connecting | Connected | Disconnected | Failed

  const STREAM_BACKOFF: int := 2_000_000_000
  const CONNECT_BACKOFF: int := 3_000_000_000
  const STABLE: int := 1_500_000_000

  datatype Event =
    | Configured(path: string)                                   // session built for this node
    | ConnReport(state: ConnState)                               // connection callback
    | Connect                                                    // svc_connect issued
    | Disconnect                                                 // svc_disconnect issued
    | Reconnected                                                // a connect round succeeded
    | RoundFailed(now: int)                                      // a connect round failed
    | Create(h: nat, path: string)                               // create_stream succeeded
    | Start(h: nat, ok: bool)                                    // start_stream returned
    | Stop(h: nat)                                               // stop_stream called
    | Destroy(h: nat)                                            // destroy_stream called
    | Stats(h: nat)                                              // get_stats called
    | StartFailed(at: int)                                       // create or start failed
    | Teardown(at: int)                                          // a running stream was torn down
    | Synced(identity: string, present: bool, at: int)           // first look at the camera node
    | Presence(present: bool, at: int)                           // camera came or went
    | Moved(path: string, identity: string, at: int)             // same camera, new node
    | Noticed                                                    // restart request read and cleared
    | TickBegin(now: int)
    | ReadyCheck(path: string, ok: bool)                         // the node was opened for a check
    | TickEnd

  /** Life of the one stream handle the session may own. */
  datatype Phase = NoHandle | Fresh(h: nat) | Broken(h: nat) | Live(h: nat) | Halted(h: nat)

  datatype Seen = Seen(
    phase: Phase, created: nat,
    path: string, since: Option<int>, identity: string,
    unseen: bool,      // a camera edge nobody has read yet
    mustStop: bool,    // a camera edge fell while a stream was live
    tick: Option<int>, attempts: nat, checked: Option<string>,
    streamGate: int, connectGate: int,
    startFails: nat, roundFails: nat,
    peak: nat)         // the longest run of failures of either kind so far

  const START: Seen :=
    Seen(NoHandle, 0, "", None, "", false, false, None, 0, None, 0, 0, 0, 0, 0)

  function Max(a: nat, b: nat): nat { if a < b then b else a }

  predicate StreamEvent(e: Event) {
    e.Create? || e.Start? || e.Stop? || e.Destroy? || e.Stats? || e.StartFailed? || e.Teardown?
  }

  predicate CameraEvent(e: Event) { e.Configured? || e.Synced? || e.Presence? || e.Moved? }

  function Observe(w: Seen, e: Event): Seen {
    if StreamEvent(e) then ObserveStream(w, e)
    else if CameraEvent(e) then ObserveCamera(w, e)
    else ObserveLoop(w, e)
  }

  function ObserveStream(w: Seen, e: Event): Seen {
    match e
    case Create(h, _) => w.(phase := Fresh(h), created := w.created + 1)
    case Start(h, ok) => if ok then w.(phase := Live(h), startFails := 0) else w.(phase := Broken(h))
    case Stop(h) => w.(phase := Halted(h), mustStop := false)
    case Destroy(_) => w.(phase := NoHandle)
    case StartFailed(at) =>
      w.(startFails := w.startFails + 1, streamGate := at + STREAM_BACKOFF, peak := Max(w.peak, w.startFails + 1))
    case Teardown(at) => w.(streamGate := at + STREAM_BACKOFF)
    case _ => w
  }

  function ObserveCamera(w: Seen, e: Event): Seen {
    match e
    case Configured(p) => w.(path := p, since := None)
    case Synced(id, on, at) => w.(identity := id, since := if on then Some(at) else None, unseen := w.unseen || !on)
    case Presence(on, at) =>
      w.(since := if on then Some(at) else None, unseen := true, mustStop := w.mustStop || w.phase.Live?)
    case Moved(p, _, at) =>
      w.(path := p, since := Some(at), unseen := true, mustStop := w.mustStop || w.phase.Live?)
    case _ => w
  }

  function ObserveLoop(w: Seen, e: Event): Seen {
    match e
    case ConnReport(s) => if s.Connected? then w.(roundFails := 0) else w
    case Connect => w.(attempts := w.attempts + 1)
    case Reconnected => w.(roundFails := 0)
    case RoundFailed(now) =>
      w.(roundFails := w.roundFails + 1, connectGate := now + CONNECT_BACKOFF, peak := Max(w.peak, w.roundFails + 1))
    case Noticed => w.(unseen := false)
    case TickBegin(now) => w.(tick := Some(now), attempts := 0, checked := None)
    case ReadyCheck(p, ok) => w.(checked := if ok then Some(p) else None)
    case _ => w
  }

  /** The laws, event by event. Connect and Disconnect against a held stream are `Exclusive` below. */
  predicate Allowed(w: Seen, e: Event) {
    if StreamEvent(e) then StreamAllowed(w, e)
    else match e
      case Connect => w.tick.Some? ==> w.attempts < 2 && w.connectGate <= w.tick.value
      case RoundFailed(now) => w.connectGate <= now
      case Presence(on, _) => on != w.since.Some?
      case Moved(p, id, _) => p != "" && p != w.path && id != "" && id == w.identity
      case TickBegin(now) => w.tick.Some? ==> w.tick.value <= now
      case TickEnd => w.phase.Live? ==> !w.mustStop && w.since.Some?
      case _ => true
  }

  predicate StreamAllowed(w: Seen, e: Event) {
    match e
    case Create(h, p) =>
      && w.phase.NoHandle? && h == w.created && p == w.path
      && (w.tick.Some? ==>
            && w.streamGate <= w.tick.value
            && w.since.Some? && STABLE <= w.tick.value - w.since.value
            && w.checked == Some(p))
    case Start(h, _) => w.phase == Fresh(h) && !w.unseen
    case Stop(h) => w.phase == Live(h)
    case Destroy(h) => w.phase == Halted(h) || w.phase == Broken(h)
    case Stats(h) => w.phase == Live(h)
    case StartFailed(at) => w.phase.NoHandle? && w.streamGate <= at
    case Teardown(at) => w.phase.NoHandle? && w.streamGate <= at
    case _ => true
  }

  function Front(t: seq<Event>): seq<Event> requires t != [] { t[..|t| - 1] }
  function Last(t: seq<Event>): Event requires t != [] { t[|t| - 1] }

  function Watch(t: seq<Event>): Seen {
    if t == [] then START else Observe(Watch(Front(t)), Last(t))
  }

  predicate Lawful(t: seq<Event>) {
    t != [] ==> Lawful(Front(t)) && Allowed(Watch(Front(t)), Last(t))
  }

  /** No connect and no disconnect was issued while a stream handle existed. */
  predicate Exclusive(t: seq<Event>) {
    t != [] ==>
      && Exclusive(Front(t))
      && (Last(t).Connect? || Last(t).Disconnect? ==> Watch(Front(t)).phase.NoHandle?)
  }

  // ---- What the laws mean for a whole history ----

  lemma {:induction false} LawfulAt(t: seq<Event>, i: nat)
    requires Lawful(t) && i < |t|
    ensures Lawful(t[..i]) && Allowed(Watch(t[..i]), t[i])
    decreases |t|
  {
    if i < |t| - 1 {
      LawfulAt(Front(t), i);
      assert Front(t)[..i] == t[..i];
    }
  }

  predicate Mentions(e: Event, h: nat) {
    (e.Create? || e.Start? || e.Stop? || e.Destroy?) && e.h == h
  }

  /** The calls made on handle `h`, in order. */
  function CallsOn(t: seq<Event>, h: nat): seq<Event> {
    if t == [] then []
    else CallsOn(Front(t), h) + if Mentions(Last(t), h) then [Last(t)] else []
  }

  /** create, start, stop, destroy; or create, failed start, destroy. */
  predicate Typestate(calls: seq<Event>, h: nat) {
    && |calls| <= 4
    && (|calls| > 0 ==> calls[0].Create? && calls[0].h == h)
    && (|calls| > 1 ==> calls[1].Start?)
    && (|calls| > 2 ==> calls[2] == if calls[1].ok then Stop(h) else Destroy(h))
    && (|calls| > 3 ==> calls[1].ok && calls[3] == Destroy(h))
  }

  /** Where a handle stands, read off its own calls only. */
  function Standing(calls: seq<Event>, h: nat): Phase
    requires Typestate(calls, h)
  {
    if |calls| == 0 then NoHandle
    else if |calls| == 1 then Fresh(h)
    else if |calls| == 2 then (if calls[1].ok then Live(h) else Broken(h))
    else if |calls| == 3 && calls[1].ok then Halted(h)
    else NoHandle
  }

  /** What the calls made on `h` so far say of it is what the observer remembers. */
  predicate Agrees(calls: seq<Event>, h: nat, w: Seen) {
    && Typestate(calls, h)
    && (calls == [] <==> w.created <= h)
    && Standing(calls, h) == if w.phase.NoHandle? || w.phase.h != h then NoHandle else w.phase
  }

  lemma AgreesStep(calls: seq<Event>, h: nat, w: Seen, e: Event)
    requires Agrees(calls, h, w) && Allowed(w, e)
    ensures Agrees(calls + if Mentions(e, h) then [e] else [], h, Observe(w, e))
  {
    if !StreamEvent(e) {
      assert Observe(w, e).phase == w.phase && Observe(w, e).created == w.created;
    } else if !Mentions(e, h) {
      assert calls + [] == calls;
    }
  }

  lemma {:induction false} HandleTypestate(t: seq<Event>, h: nat)
    requires Lawful(t)
    ensures Typestate(CallsOn(t, h), h)
    ensures CallsOn(t, h) == [] <==> Watch(t).created <= h
    ensures Standing(CallsOn(t, h), h) ==
            if Watch(t).phase.NoHandle? || Watch(t).phase.h != h then NoHandle else Watch(t).phase
  {
    if t != [] {
      hide Observe, Allowed, Mentions, Typestate, Standing;
      HandleTypestate(Front(t), h);
      assert Agrees(CallsOn(Front(t), h), h, Watch(Front(t)));
      AgreesStep(CallsOn(Front(t), h), h, Watch(Front(t)), Last(t));
      assert Agrees(CallsOn(t, h), h, Watch(t));
    }
  }

  function Creates(t: seq<Event>): nat {
    if t == [] then 0 else Creates(Front(t)) + if Last(t).Create? then 1 else 0
  }

  function Destroys(t: seq<Event>): nat {
    if t == [] then 0 else Destroys(Front(t)) + if Last(t).Destroy? then 1 else 0
  }

  lemma {:induction false} HandlesConserved(t: seq<Event>)
    requires Lawful(t)
    ensures Creates(t) == Watch(t).created
    ensures Creates(t) == Destroys(t) + if Watch(t).phase.NoHandle? then 0 else 1
  {
    if t != [] {
      HandlesConserved(Front(t));
    }
  }

  // ---- Backoff ----

  lemma GateStep(w: Seen, e: Event)
    requires Allowed(w, e)
    ensures w.streamGate <= Observe(w, e).streamGate && w.connectGate <= Observe(w, e).connectGate
  {
  }

  lemma {:induction false} GatesOnlyRise(t: seq<Event>, i: nat)
    requires Lawful(t) && i <= |t|
    ensures Watch(t[..i]).streamGate <= Watch(t).streamGate
    ensures Watch(t[..i]).connectGate <= Watch(t).connectGate
    decreases |t|
  {
    hide Observe, Allowed;
    if i < |t| {
      GateStep(Watch(Front(t)), Last(t));
      GatesOnlyRise(Front(t), i);
      assert Front(t)[..i] == t[..i];
    } else {
      assert t[..i] == t;
    }
  }

  function StartFailures(t: seq<Event>): nat {
    if t == [] then 0 else StartFailures(Front(t)) + if Last(t).StartFailed? then 1 else 0
  }

  function FailedRounds(t: seq<Event>): nat {
    if t == [] then 0 else FailedRounds(Front(t)) + if Last(t).RoundFailed? then 1 else 0
  }

  /** n failed starts span at least (n-1) backoffs. */
  lemma {:induction false} StartFailuresSpan(t: seq<Event>, i: nat)
    requires Lawful(t) && i < |t| && t[i].StartFailed?
    ensures var n := StartFailures(t) - StartFailures(t[..i]);
            1 <= n && t[i].at + n * STREAM_BACKOFF <= Watch(t).streamGate
    ensures Last(t).StartFailed? ==>
              t[i].at + (StartFailures(t) - StartFailures(t[..i]) - 1) * STREAM_BACKOFF <= Last(t).at
    decreases |t|
  {
    assert Front(t)[..i] == t[..i];
    if i < |t| - 1 {
      StartFailuresSpan(Front(t), i);
    }
  }

  /** n failed reconnect rounds span at least (n-1) backoffs. */
  lemma {:induction false} FailedRoundsSpan(t: seq<Event>, i: nat)
    requires Lawful(t) && i < |t| && t[i].RoundFailed?
    ensures var n := FailedRounds(t) - FailedRounds(t[..i]);
            1 <= n && t[i].now + n * CONNECT_BACKOFF <= Watch(t).connectGate
    ensures Last(t).RoundFailed? ==>
              t[i].now + (FailedRounds(t) - FailedRounds(t[..i]) - 1) * CONNECT_BACKOFF <= Last(t).now
    decreases |t|
  {
    assert Front(t)[..i] == t[..i];
    if i < |t| - 1 {
      FailedRoundsSpan(Front(t), i);
    }
  }

  lemma WatchAfter(t: seq<Event>, i: nat)
    requires i < |t|
    ensures Watch(t[..i + 1]) == Observe(Watch(t[..i]), t[i])
  {
    assert Front(t[..i + 1]) == t[..i];
  }

  /** Two failed starts with n failures counted from the first to the second: (n-1) backoffs apart. */
  lemma StartFailuresApart(t: seq<Event>, i: nat, j: nat)
    requires Lawful(t) && i <= j < |t| && t[i].StartFailed? && t[j].StartFailed?
    ensures t[i].at + (StartFailures(t[..j + 1]) - StartFailures(t[..i]) - 1) * STREAM_BACKOFF <= t[j].at
  {
    hide Watch, Lawful, StartFailures;
    assert t[..j + 1][..i] == t[..i];
    LawfulPrefix(t, j + 1);
    StartFailuresSpan(t[..j + 1], i);
  }

  lemma FailedRoundsApart(t: seq<Event>, i: nat, j: nat)
    requires Lawful(t) && i <= j < |t| && t[i].RoundFailed? && t[j].RoundFailed?
    ensures t[i].now + (FailedRounds(t[..j + 1]) - FailedRounds(t[..i]) - 1) * CONNECT_BACKOFF <= t[j].now
  {
    hide Watch, Lawful, FailedRounds;
    assert t[..j + 1][..i] == t[..i];
    LawfulPrefix(t, j + 1);
    FailedRoundsSpan(t[..j + 1], i);
  }

  lemma LawfulPrefix(t: seq<Event>, i: nat)
    requires Lawful(t) && i <= |t|
    ensures Lawful(t[..i])
  {
    if i < |t| {
      LawfulAt(t, i);
    } else {
      assert t[..i] == t;
    }
  }

  /** A start made by a tick comes at least one backoff after every earlier teardown or failed start. */
  lemma TickStartAfterBackoff(t: seq<Event>, i: nat, j: nat)
    requires Lawful(t) && i < j < |t| && t[j].Create? && Watch(t[..j]).tick.Some?
    requires t[i].Teardown? || t[i].StartFailed?
    ensures t[i].at + STREAM_BACKOFF <= Watch(t[..j]).tick.value
  {
    hide Watch, Lawful;
    LawfulAt(t, j);
    WatchAfter(t, i);
    assert t[..j][..i + 1] == t[..i + 1];
    GatesOnlyRise(t[..j], i + 1);
  }

  // ---- Connect attempts per tick ----

  /** Connects issued since the last tick began. */
  function ConnectsThisTick(t: seq<Event>): nat {
    if t == [] || Last(t).TickBegin? then 0
    else ConnectsThisTick(Front(t)) + if Last(t).Connect? then 1 else 0
  }

  lemma AttemptsStep(w: Seen, e: Event)
    ensures Observe(w, e).attempts ==
            if e.TickBegin? then 0 else if e.Connect? then w.attempts + 1 else w.attempts
    ensures !e.TickBegin? ==> Observe(w, e).tick == w.tick
  {
  }

  lemma {:induction false} AtMostTwoConnects(t: seq<Event>)
    requires Lawful(t) && Watch(t).tick.Some?
    ensures ConnectsThisTick(t) == Watch(t).attempts
    ensures Last(t).Connect? ==> ConnectsThisTick(t) <= 2
  {
    hide Observe;
    assert t != [];
    AttemptsStep(Watch(Front(t)), Last(t));
    if !Last(t).TickBegin? {
      AtMostTwoConnects(Front(t));
    }
  }

  // ---- Camera ----

  /** The event made the camera present as of instant `a`. */
  predicate Appears(e: Event, a: int) {
    (e.Synced? && e.present && e.at == a) || (e.Presence? && e.present && e.at == a) || (e.Moved? && e.at == a)
  }

  lemma CameraMemory(w: Seen, e: Event)
    ensures !CameraEvent(e) ==> Observe(w, e).since == w.since && Observe(w, e).path == w.path
    ensures CameraEvent(e) && Observe(w, e).since.Some? ==> Appears(e, Observe(w, e).since.value)
    ensures e.Moved? ==> Observe(w, e).path == e.path
  {
  }

  /** `Seen.since` is the instant of the last appearance, with nothing camera-related after it. */
  lemma {:induction false} PresentSince(t: seq<Event>) returns (i: nat)
    requires Watch(t).since.Some?
    ensures i < |t| && Appears(t[i], Watch(t).since.value)
    ensures forall k :: i < k < |t| ==> !CameraEvent(t[k])
    ensures Watch(t[..i + 1]).path == Watch(t).path
    ensures t[i].Moved? ==> t[i].path == Watch(t).path
  {
    hide Observe;
    assert t != [];
    CameraMemory(Watch(Front(t)), Last(t));
    if CameraEvent(Last(t)) {
      i := |t| - 1;
      assert t[..i + 1] == t;
    } else {
      i := PresentSince(Front(t));
      assert Front(t)[..i + 1] == t[..i + 1];
    }
  }

  /**
   Every stream a tick creates uses the node the monitor follows; that camera appeared at some
   earlier event at least the stable time before the tick, with no camera event in between, and the
   node was opened successfully during this same tick.
   */
  lemma TickStartIsJustified(t: seq<Event>, j: nat) returns (i: nat, k: nat, b: nat)
    requires Lawful(t) && j < |t| && t[j].Create? && Watch(t[..j]).tick.Some?
    ensures i < j && exists a :: Appears(t[i], a) && a + STABLE <= Watch(t[..j]).tick.value
    ensures forall m :: i < m < j ==> !CameraEvent(t[m])
    ensures t[j].path == Watch(t[..i + 1]).path && (t[i].Moved? ==> t[i].path == t[j].path)
    ensures b < k < j && t[k] == ReadyCheck(t[j].path, true) && t[b] == TickBegin(Watch(t[..j]).tick.value)
    ensures forall m :: b < m < j ==> !t[m].TickBegin?
  {
    hide Watch, Lawful;
    LawfulAt(t, j);
    i := PresentSince(t[..j]);
    assert t[..j][..i + 1] == t[..i + 1];
    assert Appears(t[i], Watch(t[..j]).since.value);
    k, b := CheckedThisTick(t[..j]);
  }

  lemma CheckStep(w: Seen, e: Event)
    ensures Observe(w, e).tick == if e.TickBegin? then Some(e.now) else w.tick
    ensures Observe(w, e).checked ==
            if e.TickBegin? then None
            else if e.ReadyCheck? then (if e.ok then Some(e.path) else None)
            else w.checked
  {
  }

  lemma {:induction false} CheckedThisTick(t: seq<Event>) returns (k: nat, b: nat)
    requires Watch(t).checked.Some? && Watch(t).tick.Some?
    ensures b < |t| && t[b] == TickBegin(Watch(t).tick.value)
    ensures forall m :: b < m < |t| ==> !t[m].TickBegin?
    ensures b < k < |t| && t[k] == ReadyCheck(Watch(t).checked.value, true)
  {
    b := LastTickBegin(t);
    hide Observe;
    CheckStep(Watch(Front(t)), Last(t));
    if Last(t).ReadyCheck? {
      k := |t| - 1;
    } else {
      k, b := CheckedThisTick(Front(t));
    }
  }

  lemma {:induction false} LastTickBegin(t: seq<Event>) returns (b: nat)
    requires Watch(t).tick.Some?
    ensures b < |t| && t[b] == TickBegin(Watch(t).tick.value)
    ensures forall m :: b < m < |t| ==> !t[m].TickBegin?
  {
    hide Observe;
    assert t != [];
    CheckStep(Watch(Front(t)), Last(t));
    if Last(t).TickBegin? {
      b := |t| - 1;
    } else {
      b := LastTickBegin(Front(t));
    }
  }

  /** A camera edge while handle `h` runs: `h` is stopped before the next tick ends. */
  lemma {:induction false} EdgeStopsStream(t: seq<Event>, i: nat, j: nat) returns (k: nat)
    requires Lawful(t) && i < j < |t| && (t[i].Presence? || t[i].Moved?) && t[j].TickEnd?
    requires Watch(t[..i]).phase.Live?
    ensures i < k < j && t[k] == Stop(Watch(t[..i]).phase.h)
  {
    LawfulAt(t, j);
    assert t[..j][..i] == t[..i];
    k := StopOrStillOwed(t[..j], i);
    assert k < j;
  }

  lemma {:induction false} StopOrStillOwed(t: seq<Event>, i: nat) returns (k: nat)
    requires Lawful(t) && i < |t| && (t[i].Presence? || t[i].Moved?) && Watch(t[..i]).phase.Live?
    ensures k < |t| ==> i < k && t[k] == Stop(Watch(t[..i]).phase.h)
    ensures k == |t| ==> Watch(t).mustStop && Watch(t).phase == Watch(t[..i]).phase
    ensures k <= |t|
    decreases |t|
  {
    assert Front(t)[..i] == t[..i];
    if i == |t| - 1 {
      k := |t|;
    } else {
      k := StopOrStillOwed(Front(t), i);
      if k == |t| - 1 && !Last(t).Stop? {
        k := |t|;
      }
    }
  }

  /** The camera came, went, moved, or was found missing at the first look. */
  predicate Edge(e: Event) {
    e.Presence? || e.Moved? || (e.Synced? && !e.present)
  }

  /** Between any camera edge and a later start of a stream somebody reads the restart request. */
  lemma EdgeSeenBeforeStart(t: seq<Event>, i: nat, j: nat) returns (k: nat)
    requires Lawful(t) && i < j < |t| && Edge(t[i]) && t[j].Start?
    ensures i < k < j && t[k].Noticed?
  {
    hide Watch, Lawful;
    LawfulAt(t, j);
    k := NoticedOrUnseen(t[..j], i);
  }

  lemma {:induction false} NoticedOrUnseen(t: seq<Event>, i: nat) returns (k: nat)
    requires i < |t| && Edge(t[i])
    ensures i < k <= |t| && (k < |t| ==> t[k].Noticed?)
    ensures k == |t| ==> Watch(t).unseen
    decreases |t|
  {
    hide Observe;
    UnseenStep(Watch(Front(t)), Last(t));
    if i == |t| - 1 {
      k := |t|;
    } else {
      k := NoticedOrUnseen(Front(t), i);
      if k == |t| - 1 && !Last(t).Noticed? {
        k := |t|;
      }
    }
  }

  lemma UnseenStep(w: Seen, e: Event)
    ensures Observe(w, e).unseen <==> Edge(e) || (w.unseen && !e.Noticed?)
  {
  }

  /** A tick never ends with a stream running on a camera that is away, or has moved since it started. */
  lemma HeldAtTickEnd(t: seq<Event>, j: nat) returns (i: nat)
    requires Lawful(t) && j < |t| && t[j].TickEnd? && Watch(t[..j]).phase.Live?
    ensures i < j && exists a :: Appears(t[i], a)
    ensures forall k :: i < k < j ==> !CameraEvent(t[k])
  {
    hide Watch, Lawful;
    LawfulAt(t, j);
    i := PresentSince(t[..j]);
    assert Appears(t[i], Watch(t[..j]).since.value);
  }

  /** The camera is only ever followed to a node that carries the identity read at start-up. */
  lemma {:induction false} MovesKeepIdentity(t: seq<Event>, j: nat) returns (i: nat)
    requires Lawful(t) && j < |t| && t[j].Moved?
    ensures i < j && t[i].Synced? && t[i].identity == t[j].identity != ""
    ensures forall m :: i < m < j ==> !t[m].Synced?
  {
    LawfulAt(t, j);
    i := LastSync(t[..j]);
  }

  lemma IdentityStep(w: Seen, e: Event)
    ensures Observe(w, e).identity == if e.Synced? then e.identity else w.identity
  {
  }

  lemma {:induction false} LastSync(t: seq<Event>) returns (i: nat)
    requires Watch(t).identity != ""
    ensures i < |t| && t[i].Synced? && t[i].identity == Watch(t).identity
    ensures forall m :: i < m < |t| ==> !t[m].Synced?
  {
    hide Observe;
    IdentityStep(Watch(Front(t)), Last(t));
    if Last(t).Synced? {
      i := |t| - 1;
    } else {
      i := LastSync(Front(t));
    }
  }

  // ---- Failure counters ----

  predicate EndsRun(e: Event) { e.Start? && e.ok }

  predicate EndsRounds(e: Event) { e.Reconnected? || e == ConnReport(Connected) }

  /** `startFails` is the number of failed starts after the last successful one. */
  lemma {:induction false} TrailingStartFailures(t: seq<Event>) returns (i: nat)
    ensures i <= |t| && (i > 0 ==> EndsRun(t[i - 1]))
    ensures forall m :: i <= m < |t| ==> !EndsRun(t[m])
    ensures Watch(t).startFails == StartFailures(t) - StartFailures(t[..i])
  {
    assert t[..|t|] == t;
    if t == [] {
      i := 0;
    } else if EndsRun(Last(t)) {
      i := |t|;
    } else {
      i := TrailingStartFailures(Front(t));
      assert Front(t)[..i] == t[..i];
    }
  }

  /** `roundFails` is the number of failed rounds after the last sign of a connection. */
  lemma {:induction false} TrailingRoundFailures(t: seq<Event>) returns (i: nat)
    ensures i <= |t| && (i > 0 ==> EndsRounds(t[i - 1]))
    ensures forall m :: i <= m < |t| ==> !EndsRounds(t[m])
    ensures Watch(t).roundFails == FailedRounds(t) - FailedRounds(t[..i])
  {
    assert t[..|t|] == t;
    if t == [] {
      i := 0;
    } else if EndsRounds(Last(t)) {
      i := |t|;
    } else {
      i := TrailingRoundFailures(Front(t));
      assert Front(t)[..i] == t[..i];
    }
  }

  /** `peak` is a length some run of failures really had, and no run was ever longer. */
  lemma {:induction false} PeakIsLongestRun(t: seq<Event>) returns (i: nat)
    ensures i <= |t| && (Watch(t[..i]).startFails == Watch(t).peak || Watch(t[..i]).roundFails == Watch(t).peak)
    ensures forall k :: 0 <= k <= |t| ==>
              Watch(t[..k]).startFails <= Watch(t).peak && Watch(t[..k]).roundFails <= Watch(t).peak
  {
    hide Observe;
    assert t[..|t|] == t;
    if t == [] {
      i := 0;
    } else {
      var j := PeakIsLongestRun(Front(t));
      assert forall k :: 0 <= k < |t| ==> Front(t)[..k] == t[..k];
      PeakStep(Watch(Front(t)), Last(t));
      i := if Watch(t).peak == Watch(Front(t)).peak then j else |t|;
      assert Front(t)[..|t| - 1] == Front(t);
    }
  }

  lemma PeakStep(w: Seen, e: Event)
    requires w.startFails <= w.peak && w.roundFails <= w.peak
    ensures var v := Observe(w, e);
            && v.startFails <= v.peak && v.roundFails <= v.peak && w.peak <= v.peak
            && (w.peak < v.peak ==> v.startFails == v.peak || v.roundFails == v.peak)
  {
  }
}
