/**
 The client library in its own form: one state object under one mutex. Each call is its critical
 sections in order, with an arbitrary script of other threads' stream calls in every gap between
 them; each is proved to be the corresponding interleaving of ClientModel steps. Every user
 callback demands that the mutex is free.
 */
module ClientLibrary {
  import opened ClientModel

  datatype Rc = Ok | ErrState | ErrAlreadyOpen | ErrInfrastructure

  /** Steps other threads may take while a lifecycle call is between critical sections. */
  predicate StreamStep(s: Step) { s.OpenReserve? || s.OpenFinish? || s.Close? }

  predicate StreamSteps(steps: seq<Step>) {
    forall k :: 0 <= k < |steps| ==> StreamStep(steps[k])
  }

  lemma {:induction false} StreamStepsLeaveLifecycle(c: Client, steps: seq<Step>)
    requires StreamSteps(steps)
    ensures var d := Run(c, steps);
            d.pc == c.pc && d.life == c.life && d.hasCb == c.hasCb && d.cb == c.cb
    decreases |steps|
  {
    if steps != [] {
      StreamStepsLeaveLifecycle(Apply(c, steps[0]), steps[1..]);
    }
  }

  lemma RunOne(c: Client, s: Step)
    ensures Run(c, [s]) == Apply(c, s)
  {
    hide Apply;
    assert [s][1..] == [];
    assert Run(Apply(c, s), []) == Apply(c, s);
  }

  /** One step, a script, and one more step. */
  lemma RunAround(c: Client, first: Step, between: seq<Step>, last: Step)
    ensures Run(c, [first] + between + [last]) == Apply(Run(Apply(c, first), between), last)
  {
    hide Apply, Run;
    RunConcat(c, [first] + between, [last]);
    RunConcat(c, [first], between);
    RunOne(c, first);
    RunOne(Run(Apply(c, first), between), last);
  }

  class State {
    var lifecycle: Life
    var streams: map<nat, int>
    var hasConnectCb: bool
    var connectCb: bool
    ghost var locked: bool
    var pc: Pc             // where the thread that makes the lifecycle calls stands
    var opening: set<nat>  // open_stream calls between their two critical sections
    ghost var trace: seq<Event>

    ghost function View(): Client
      reads this
    {
      Client(lifecycle, streams, hasConnectCb, connectCb, pc, opening, trace)
    }

    constructor ()
      ensures View() == FRESH && !locked
    {
      lifecycle, streams, hasConnectCb, connectCb := Life.Uninit, map[], false, false;
      locked, pc, opening, trace := false, Ready, {}, [];
    }

    ghost method Lock()
      requires !locked
      modifies `locked
      ensures locked
    {
      locked := true;
    }

    ghost method Unlock()
      requires locked
      modifies `locked
      ensures !locked
    {
      locked := false;
    }

    /** The user's connection callback: never under the mutex. */
    ghost method OnState(up: bool)
      requires !locked
      modifies `trace
      ensures trace == old(trace) + [Report(up)]
    {
      trace := trace + [Report(up)];
    }

    method Init(infrastructureOk: bool) returns (rc: Rc)
      requires !locked && pc.Ready?
      modifies this
      ensures !locked && View() == Apply(old(View()), Step.Init(infrastructureOk))
      ensures rc == if old(lifecycle).Uninit? && !infrastructureOk then ErrInfrastructure else Ok
    {
      Lock();
      if lifecycle != Life.Uninit {
        Unlock();
        return Ok;
      }
      if !infrastructureOk {
        Unlock();
        return ErrInfrastructure;
      }
      lifecycle := Inited;
      Unlock();
      return Ok;
    }

    // ---- Stream calls ----

    /** The first critical section of open_stream; h is the address of the new stream. */
    method Reserve(index: int, h: nat) returns (rc: Rc)
      requires !locked && h !in streams && h !in opening
      modifies this
      ensures !locked && View() == Apply(old(View()), OpenReserve(index, h))
      ensures rc == (if !old(lifecycle).Connected? then ErrState
                     else if IndexOpen(old(View()), index) then ErrAlreadyOpen else Ok)
      ensures rc == Ok ==> h in opening && h in streams && streams[h] == index
    {
      Lock();
      if lifecycle != Connected {
        Unlock();
        return ErrState;
      }
      if exists x | x in streams :: streams[x] == index {
        Unlock();
        return ErrAlreadyOpen;
      }
      streams := streams[h := index];
      opening := opening + {h};
      trace := trace + [Insert(h, index)];
      Unlock();
      return Ok;
    }

    /** The end of open_stream: erase the entry again if the session could not be opened. */
    method Finish(h: nat, sessionOk: bool)
      requires !locked && h in opening
      modifies this
      ensures !locked && View() == Apply(old(View()), OpenFinish(h, sessionOk))
    {
      if !sessionOk {
        Lock();
        if h in streams {
          trace := trace + [ByFailedOpen(h)];
          streams := streams - {h};
        }
        Unlock();
      }
      opening := opening - {h};
    }

    method CloseStream(handle: nat) returns (found: bool)
      requires !locked
      modifies this
      ensures !locked && View() == Apply(old(View()), Close(handle))
      ensures found <==> handle in old(streams)
    {
      Lock();
      found := handle in streams;
      if found {
        streams := streams - {handle};
        trace := trace + [ByClose(handle)];
      }
      Unlock();
    }

    /** Other threads take these steps, each atomically; a step whose call is not at that point does nothing. */
    method Interleave(steps: seq<Step>)
      requires !locked
      modifies this
      ensures !locked && View() == Run(old(View()), steps)
    {
      hide IndexOpen;
      var k := 0;
      while k < |steps|
        invariant 0 <= k <= |steps| && !locked
        invariant Run(View(), steps[k..]) == Run(old(View()), steps)
      {
        hide Apply;
        assert steps[k..][1..] == steps[k + 1..];
        TakeStep(steps[k]);
        k := k + 1;
      }
    }

    method TakeStep(s: Step)
      requires !locked
      modifies this
      ensures !locked && View() == Apply(old(View()), s)
    {
      match s {
        case OpenReserve(index, h) => if h !in streams && h !in opening { var _ := Reserve(index, h); }
        case OpenFinish(h, ok) => if h in opening { Finish(h, ok); }
        case Close(h) => var _ := CloseStream(h);
        case Init(ok) => if pc.Ready? { var _ := Init(ok); }
        case ConnectApply(cb) => if pc.Ready? { var _ := BeginConnect(cb); }
        case ConnectFinish(ok) => if pc.Starting? { EndConnect(ok); }
        case ConnectReport => if pc.Announcing? { TellConnected(connectCb); }
        case DisconnectTake(uninit) => if pc.Ready? { var _, _ := TakeTable(uninit); }
        case DisconnectReport => if pc.Leaving? { TellDisconnected(pc.uninit, pc.tell); }
        case UninitClear => if pc.Clearing? { ClearAll(); }
      }
    }

    /** Between its critical sections any steps of other threads may happen, those of a lifecycle call included. */
    method OpenStream(index: int, h: nat, between: seq<Step>, sessionOk: bool) returns (rc: Rc)
      requires !locked && h !in streams && h !in opening && OthersSteps(between, h)
      modifies this
      ensures !locked
      ensures rc == (if !old(lifecycle).Connected? then ErrState
                     else if IndexOpen(old(View()), index) then ErrAlreadyOpen
                     else if !sessionOk then ErrInfrastructure else Ok)
      ensures rc == Ok || rc == ErrInfrastructure ==>
                View() == Run(old(View()), [OpenReserve(index, h)] + between + [OpenFinish(h, sessionOk)])
      ensures rc == ErrState || rc == ErrAlreadyOpen ==> View() == old(View())
      ensures rc == Ok && Protocol(old(View())) ==>
                (h in streams <==> forall k: nat :: !Undone(Apply(old(View()), OpenReserve(index, h)), between, h, k))
    {
      hide Run, IndexOpen, Protocol, Undone;
      rc := Reserve(index, h);
      if rc != Ok { return; }
      OthersKeepOpening(View(), between, h);
      Interleave(between);
      Finish(h, sessionOk);
      RunAround(old(View()), OpenReserve(index, h), between, OpenFinish(h, sessionOk));
      if sessionOk && Protocol(old(View())) {
        OpenReturnsLiveHandle(old(View()), index, h, between);
      }
      rc := if sessionOk then Ok else ErrInfrastructure;
    }

    // ---- Critical sections and callbacks of the lifecycle calls ----

    /** ValidateConnectTransition and ApplyConnectTransition. */
    method BeginConnect(cb: bool) returns (rc: Rc)
      requires !locked && pc.Ready?
      modifies this
      ensures !locked && View() == Apply(old(View()), ConnectApply(cb))
      ensures rc == (if old(lifecycle).Inited? then Ok else ErrState) && (rc == Ok ==> pc.Starting?)
    {
      Lock();
      if lifecycle == Life.Uninit || lifecycle == Connecting || lifecycle == Connected {
        Unlock();
        return ErrState;
      }
      connectCb := cb;
      hasConnectCb := true;
      lifecycle := Connecting;
      pc := Starting;
      Unlock();
      return Ok;
    }

    /** RollbackConnectFailed or CommitConnected. */
    method EndConnect(infrastructureOk: bool)
      requires !locked && pc.Starting?
      modifies this
      ensures !locked && View() == Apply(old(View()), ConnectFinish(infrastructureOk))
    {
      Lock();
      if infrastructureOk {
        lifecycle := Connected;
        pc := Announcing;
      } else {
        lifecycle := Inited;
        hasConnectCb := false;
        pc := Ready;
      }
      Unlock();
    }

    /** `tell` is the copy of the callback taken under the lock. */
    method TellConnected(tell: bool)
      requires !locked && pc.Announcing? && tell == connectCb
      modifies this
      ensures !locked && View() == Apply(old(View()), ConnectReport)
    {
      if tell {
        OnState(true);
      }
      pc := Ready;
    }

    /** The critical section of disconnect. */
    method TakeTable(uninit: bool) returns (left: bool, tell: bool)
      requires !locked && pc.Ready?
      modifies this
      ensures !locked && View() == Apply(old(View()), DisconnectTake(uninit))
      ensures left <==> old(lifecycle).Connected? || old(lifecycle).Connecting?
      ensures if left then pc == Leaving(tell, uninit) else pc == (if uninit then Clearing else Ready)
      ensures lifecycle == if left then Inited else old(lifecycle)
    {
      Lock();
      if lifecycle != Connected && lifecycle != Connecting {
        pc := if uninit then Clearing else Ready;
        Unlock();
        return false, false;
      }
      trace := trace + [BySnapshot(streams.Keys)];
      streams := map[];
      tell := hasConnectCb && connectCb;
      hasConnectCb := false;
      lifecycle := Inited;
      pc := Leaving(tell, uninit);
      Unlock();
      left := true;
    }

    method TellDisconnected(uninit: bool, tell: bool)
      requires !locked && pc == Leaving(tell, uninit)
      modifies this
      ensures !locked && View() == Apply(old(View()), DisconnectReport)
      ensures pc == if uninit then Clearing else Ready
      ensures lifecycle == old(lifecycle)
    {
      if tell {
        OnState(false);
      }
      pc := if uninit then Clearing else Ready;
    }

    /** The critical section of uninit. */
    method ClearAll()
      requires !locked && pc.Clearing?
      modifies this
      ensures !locked && pc.Ready? && lifecycle.Uninit? && View() == Apply(old(View()), UninitClear)
    {
      Lock();
      if lifecycle != Life.Uninit {
        trace := trace + [ByUninit(streams.Keys)];
        streams := map[];
        lifecycle := Life.Uninit;
      }
      pc := Ready;
      Unlock();
    }

    // ---- Lifecycle calls, one at a time ----

    method Connect(cb: bool, during: seq<Step>, infrastructureOk: bool, after: seq<Step>) returns (rc: Rc)
      requires !locked && pc.Ready? && StreamSteps(during) && StreamSteps(after)
      modifies this
      ensures !locked && pc.Ready?
      ensures rc == (if !old(lifecycle).Inited? then ErrState else if infrastructureOk then Ok else ErrInfrastructure)
      ensures rc == ErrState ==> View() == old(View())
      ensures rc == ErrInfrastructure ==>
                View() == Run(old(View()), [ConnectApply(cb)] + during + [ConnectFinish(false)])
      ensures rc == Ok ==>
                View() ==
                Run(old(View()), [ConnectApply(cb)] + during + [ConnectFinish(true)] + after + [ConnectReport])
      ensures lifecycle == match rc case Ok => Connected case ErrInfrastructure => Inited case _ => old(lifecycle)
    {
      hide Run, IndexOpen;
      ghost var c0 := View();
      rc := BeginConnect(cb);
      if rc != Ok { return; }
      StreamStepsLeaveLifecycle(View(), during);
      Interleave(during);
      EndConnect(infrastructureOk);
      RunAround(c0, ConnectApply(cb), during, ConnectFinish(infrastructureOk));
      if !infrastructureOk {
        return ErrInfrastructure;
      }
      ghost var first := [ConnectApply(cb)] + during + [ConnectFinish(true)];
      assert View() == Run(c0, first);
      StreamStepsLeaveLifecycle(View(), after);
      Interleave(after);
      RunConcat(c0, first, after);
      ghost var c2 := View();
      TellConnected(cb);
      RunOne(c2, ConnectReport);
      RunConcat(c0, first + after, [ConnectReport]);
    }

    /** As called by the user, or by uninit before its own critical section. */
    method Disconnect(uninit: bool, during: seq<Step>)
      requires !locked && pc.Ready? && StreamSteps(during)
      modifies this
      ensures !locked && pc == if uninit then Clearing else Ready
      ensures View() == Run(old(View()), DisconnectSteps(old(View()), uninit, during))
      ensures lifecycle == if old(lifecycle) in {Connected, Connecting} then Inited else old(lifecycle)
    {
      hide Run, IndexOpen, Apply;
      ghost var c0 := View();
      var left, tell := TakeTable(uninit);
      RunOne(c0, DisconnectTake(uninit));
      if !left { return; }
      StreamStepsLeaveLifecycle(View(), during);
      Interleave(during);
      TellDisconnected(uninit, tell);
      RunAround(c0, DisconnectTake(uninit), during, DisconnectReport);
    }

    /** uninit finds the table empty, so its clear removes nothing. */
    method Uninit(during: seq<Step>, between: seq<Step>)
      requires !locked && pc.Ready? && StreamSteps(during) && StreamSteps(between)
      requires Inv(View())
      modifies this
      ensures !locked && pc.Ready? && lifecycle.Uninit? && streams == map[] && Inv(View())
      ensures View() == Run(old(View()), DisconnectSteps(old(View()), true, during) + between + [UninitClear])
    {
      hide Run, IndexOpen, Apply, Inv, DisconnectSteps;
      ghost var c0 := View();
      ghost var first := DisconnectSteps(c0, true, during);
      Disconnect(true, during);
      StreamStepsLeaveLifecycle(View(), between);
      Interleave(between);
      RunConcat(c0, first, between);
      ghost var c1 := View();
      RunKeeps(c0, first + between);
      ClearAll();
      RunOne(c1, UninitClear);
      RunConcat(c0, first + between, [UninitClear]);
      RunKeeps(c1, [UninitClear]);
      EmptyWhenUninit(View());
    }
  }

  /** What a call of disconnect does to the state it finds. */
  function DisconnectSteps(c: Client, uninit: bool, during: seq<Step>): seq<Step> {
    if c.life.Connected? || c.life.Connecting? then [DisconnectTake(uninit)] + during + [DisconnectReport]
    else [DisconnectTake(uninit)]
  }

  lemma EmptyWhenUninit(c: Client)
    requires Inv(c) && c.life.Uninit?
    ensures c.table == map[]
  {
  }
}
