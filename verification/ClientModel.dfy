/**
 The client library's connection lifecycle and stream table as atomic steps: each step is one
 critical section under `state.mu`, or one user callback made outside it. Lifecycle calls are
 serial, so one program counter follows them; stream calls interleave freely with everything.
 */
module ClientModel {

  datatype Life = Uninit | Inited | Connecting | Connected

  /** Where the lifecycle call in progress stands between two of its critical sections. */
  datatype Pc =
    | Ready
    | Starting                    // connect has applied the transition, the infrastructure comes up
    | Announcing                  // connect has committed, its callback is due
    | Leaving(tell: bool, uninit: bool)  // disconnect has let go of the table, its callback may be due
    | Clearing                    // uninit after its disconnect

  datatype Event =
    | Insert(h: nat, index: int)
    | ByClose(h: nat)
    | ByFailedOpen(h: nat)
    | BySnapshot(hs: set<nat>)
    | ByUninit(hs: set<nat>)
    | Report(up: bool)            // on_state(CONNECTED) or on_state(DISCONNECTED)

  datatype Client = Client(
    life: Life, table: map<nat, int>, hasCb: bool, cb: bool, pc: Pc,
    opening: set<nat>, trace: seq<Event>)

  const FRESH: Client := Client(Uninit, map[], false, false, Ready, {}, [])

  datatype Step =
    | Init(ok: bool)
    | ConnectApply(cb: bool)      // cb: the caller's on_state is not null
    | ConnectFinish(ok: bool)
    | ConnectReport
    | DisconnectTake(uninit: bool)
    | DisconnectReport
    | UninitClear
    | OpenReserve(index: int, h: nat)  // h: the address of the new stream, not one still in use
    | OpenFinish(h: nat, ok: bool)
    | Close(h: nat)

  predicate IndexOpen(c: Client, index: int) {
    exists h :: h in c.table && c.table[h] == index
  }

  /** The address of a freed stream may come again; that of a stream in the table or being opened cannot. */
  predicate CanReserve(c: Client, index: int, h: nat) {
    c.life.Connected? && !IndexOpen(c, index) && h !in c.table && h !in c.opening
  }

  /** A step whose call is not at that point does nothing. */
  function Apply(c: Client, s: Step): Client {
    match s
    case Init(ok) =>
      if c.pc.Ready? && c.life.Uninit? && ok then c.(life := Inited) else c
    case ConnectApply(cb) =>
      if c.pc.Ready? && c.life.Inited? then c.(life := Connecting, hasCb := true, cb := cb, pc := Starting) else c
    case ConnectFinish(ok) =>
      if !c.pc.Starting? then c
      else if ok then c.(life := Connected, pc := Announcing)
      else c.(life := Inited, hasCb := false, pc := Ready)
    case ConnectReport =>
      if !c.pc.Announcing? then c
      else c.(pc := Ready, trace := c.trace + if c.cb then [Report(true)] else [])
    case DisconnectTake(uninit) =>
      if !c.pc.Ready? then c
      else if c.life.Connected? || c.life.Connecting? then
        c.(table := map[], hasCb := false, life := Inited, pc := Leaving(c.hasCb && c.cb, uninit),
           trace := c.trace + [BySnapshot(c.table.Keys)])
      else c.(pc := if uninit then Clearing else Ready)
    case DisconnectReport =>
      if !c.pc.Leaving? then c
      else c.(pc := if c.pc.uninit then Clearing else Ready,
              trace := c.trace + if c.pc.tell then [Report(false)] else [])
    case UninitClear =>
      if !c.pc.Clearing? then c
      else if c.life.Uninit? then c.(pc := Ready)
      else c.(table := map[], life := Uninit, pc := Ready, trace := c.trace + [ByUninit(c.table.Keys)])
    case OpenReserve(index, h) =>
      if !CanReserve(c, index, h) then c
      else c.(table := c.table[h := index], opening := c.opening + {h}, trace := c.trace + [Insert(h, index)])
    case OpenFinish(h, ok) =>
      if h !in c.opening then c
      else if ok || h !in c.table then c.(opening := c.opening - {h})
      else c.(opening := c.opening - {h}, table := c.table - {h}, trace := c.trace + [ByFailedOpen(h)])
    case Close(h) =>
      if h !in c.table then c
      else c.(table := c.table - {h}, trace := c.trace + [ByClose(h)])
  }

  function Run(c: Client, steps: seq<Step>): Client
    decreases |steps|
  {
    if steps == [] then c else Run(Apply(c, steps[0]), steps[1..])
  }

  lemma {:induction false} RunConcat(c: Client, a: seq<Step>, b: seq<Step>)
    ensures Run(Run(c, a), b) == Run(c, a + b)
    decreases |a|
  {
    hide Apply;
    if a == [] {
      assert a + b == b;
    } else {
      RunConcat(Apply(c, a[0]), a[1..], b);
      assert (a + b)[1..] == a[1..] + b;
    }
  }

  // ---- Reading a history ----

  function Front(t: seq<Event>): seq<Event> requires t != [] { t[..|t| - 1] }
  function Last(t: seq<Event>): Event requires t != [] { t[|t| - 1] }

  predicate Takes(e: Event, h: nat) {
    match e
    case ByClose(x) => x == h
    case ByFailedOpen(x) => x == h
    case BySnapshot(hs) => h in hs
    case ByUninit(hs) => h in hs
    case _ => false
  }

  /** What became of handle `h`: true for each time it was put into the table, false for each time it was taken out. */
  function Uses(t: seq<Event>, h: nat): seq<bool> {
    if t == [] then [] else Uses(Front(t), h) + Use(Last(t), h)
  }

  function Use(e: Event, h: nat): seq<bool> {
    if e.Insert? && e.h == h then [true] else if Takes(e, h) then [false] else []
  }

  datatype Totals = Totals(inserted: nat, closed: nat, failed: nat, snapshotted: nat, cleared: nat)

  function Tally(t: seq<Event>): Totals {
    if t == [] then Totals(0, 0, 0, 0, 0)
    else Count(Tally(Front(t)), Last(t))
  }

  function Reports(t: seq<Event>): seq<bool> {
    if t == [] then [] else Reports(Front(t)) + if Last(t).Report? then [Last(t).up] else []
  }

  /** true, false, true, ... */
  predicate Alternating(r: seq<bool>) {
    forall k :: 0 <= k < |r| ==> r[k] == (k % 2 == 0)
  }

  function Count(n: Totals, e: Event): Totals {
    match e
    case Insert(_, _) => n.(inserted := n.inserted + 1)
    case ByClose(_) => n.(closed := n.closed + 1)
    case ByFailedOpen(_) => n.(failed := n.failed + 1)
    case BySnapshot(hs) => n.(snapshotted := n.snapshotted + |hs|)
    case ByUninit(hs) => n.(cleared := n.cleared + |hs|)
    case Report(_) => n
  }

  lemma Appended(t: seq<Event>, e: Event)
    ensures Tally(t + [e]) == Count(Tally(t), e)
    ensures forall h :: Uses(t + [e], h) == Uses(t, h) + Use(e, h)
  {
    assert Front(t + [e]) == t && Last(t + [e]) == e;
  }

  // ---- What every interleaving keeps ----

  predicate Distinct(table: map<nat, int>) {
    forall h, g :: h in table && g in table && table[h] == table[g] ==> h == g
  }

  /** The user was told CONNECTED and not yet DISCONNECTED. */
  predicate Up(t: seq<Event>) { |Reports(t)| % 2 == 1 }

  predicate PcAgrees(c: Client) {
    && (c.hasCb <==> c.life.Connecting? || c.life.Connected?)
    && (c.life.Connecting? <==> c.pc.Starting?)
    && match c.pc
       case Ready => Up(c.trace) <==> c.life.Connected? && c.cb
       case Starting => !Up(c.trace)
       case Announcing => c.life.Connected? && !Up(c.trace)
       case Leaving(tell, _) => c.life.Inited? && (Up(c.trace) <==> tell)
       case Clearing => (c.life.Inited? || c.life.Uninit?) && !Up(c.trace)
  }

  ghost predicate Protocol(c: Client) {
    && (c.table != map[] ==> c.life.Connected?)
    && PcAgrees(c) && Alternating(Reports(c.trace))
  }

  /** In and out in turns, the first time in, and now in exactly if the last turn was in. */
  predicate InTurns(uses: seq<bool>, isIn: bool) {
    Alternating(uses) && (isIn <==> |uses| % 2 == 1)
  }

  predicate Balanced(n: Totals, live: nat) {
    n.inserted == live + n.closed + n.failed + n.snapshotted + n.cleared
  }

  lemma NextTurn(uses: seq<bool>, isIn: bool)
    requires InTurns(uses, isIn)
    ensures InTurns(uses + [!isIn], !isIn) && InTurns(uses + [], isIn)
  {
    assert uses + [] == uses;
  }

  /** Each handle went in and came out in turns, and is in the table exactly when its last turn was in. */
  ghost predicate Ledger(c: Client) {
    && Distinct(c.table)
    && (forall h: nat :: InTurns(Uses(c.trace, h), h in c.table))
    && Balanced(Tally(c.trace), |c.table|)
  }

  ghost predicate Inv(c: Client) {
    Protocol(c) && Ledger(c) && Tally(c.trace).cleared == 0
  }

  /** The event a step adds, if any. */
  function News(c: Client, s: Step): seq<Event> {
    Apply(c, s).trace[|c.trace|..]
  }

  lemma TraceGrows(c: Client, s: Step)
    ensures |c.trace| <= |Apply(c, s).trace| <= |c.trace| + 1
    ensures Apply(c, s).trace == c.trace + News(c, s)
    ensures Apply(c, s).trace != c.trace ==>
              Front(Apply(c, s).trace) == c.trace && News(c, s) == [Last(Apply(c, s).trace)]
  {
  }

  lemma ReportsGrow(c: Client, s: Step)
    ensures var t := Apply(c, s).trace;
            Reports(t) == if t != c.trace && Last(t).Report? then Reports(c.trace) + [Last(t).up] else Reports(c.trace)
  {
    TraceGrows(c, s);
  }

  lemma ProtocolKept(c: Client, s: Step)
    requires Protocol(c)
    ensures Protocol(Apply(c, s))
  {
    ReportsGrow(c, s);
    hide Reports;
  }

  /** Whoever takes `gone` out of the table balances the books. */
  lemma TakingBalances(c: Client, c': Client, e: Event, gone: set<nat>)
    requires Ledger(c) && gone <= c.table.Keys
    requires c'.table == c.table - gone && c'.trace == c.trace + [e]
    requires match e
             case ByClose(h) => gone == {h}
             case ByFailedOpen(h) => gone == {h}
             case BySnapshot(hs) => gone == hs
             case ByUninit(hs) => gone == hs
             case _ => false
    ensures Ledger(c')
  {
    hide Uses, Tally, InTurns;
    Appended(c.trace, e);
    assert c'.table.Keys == c.table.Keys - gone;
    assert |c'.table| == |c.table| - |gone|;
    forall h: nat
      ensures InTurns(Uses(c'.trace, h), h in c'.table)
    {
      NextTurn(Uses(c.trace, h), h in c.table);
      assert Use(e, h) == if h in gone then [false] else [];
    }
  }

  lemma ReservingBalances(c: Client, c': Client, index: int, h: nat)
    requires Ledger(c) && CanReserve(c, index, h) && c' == Apply(c, OpenReserve(index, h))
    ensures Ledger(c')
  {
    hide Uses, Tally, InTurns;
    Appended(c.trace, Insert(h, index));
    forall g: nat
      ensures InTurns(Uses(c'.trace, g), g in c'.table)
    {
      NextTurn(Uses(c.trace, g), g in c.table);
      assert Use(Insert(h, index), g) == if g == h then [true] else [];
    }
  }

  lemma SameBooks(c: Client, c': Client)
    requires Ledger(c) && c'.table == c.table
    requires c'.trace == c.trace || exists up :: c'.trace == c.trace + [Report(up)]
    ensures Ledger(c')
  {
    hide Uses, Tally, InTurns;
    if c'.trace != c.trace {
      var up :| c'.trace == c.trace + [Report(up)];
      Appended(c.trace, Report(up));
      assert forall h: nat :: Uses(c'.trace, h) == Uses(c.trace, h) + [] == Uses(c.trace, h);
    }
  }

  lemma LedgerKept(c: Client, s: Step)
    requires Ledger(c)
    ensures Ledger(Apply(c, s))
  {
    hide Ledger, Uses, Tally, CanReserve;
    var c' := Apply(c, s);
    if c'.trace == c.trace || s.ConnectReport? || s.DisconnectReport? {
      SameBooks(c, c');
    } else {
      match s {
        case OpenReserve(index, h) => ReservingBalances(c, c', index, h);
        case OpenFinish(h, _) => TakingBalances(c, c', ByFailedOpen(h), {h});
        case Close(h) => TakingBalances(c, c', ByClose(h), {h});
        case DisconnectTake(_) =>
          assert c'.table == c.table - c.table.Keys;
          TakingBalances(c, c', BySnapshot(c.table.Keys), c.table.Keys);
        case UninitClear =>
          assert c'.table == c.table - c.table.Keys;
          TakingBalances(c, c', ByUninit(c.table.Keys), c.table.Keys);
        case _ => assert false;
      }
    }
  }

  /** By the time uninit clears the table there is nothing in it. */
  lemma NothingToClear(c: Client, s: Step)
    requires Inv(c)
    ensures Tally(Apply(c, s).trace).cleared == 0
  {
    TraceGrows(c, s);
  }

  lemma {:induction false} RunKeeps(c: Client, steps: seq<Step>)
    requires Inv(c)
    ensures Inv(Run(c, steps))
    decreases |steps|
  {
    hide Apply, Protocol, Ledger;
    if steps != [] {
      ProtocolKept(c, steps[0]);
      LedgerKept(c, steps[0]);
      NothingToClear(c, steps[0]);
      RunKeeps(Apply(c, steps[0]), steps[1..]);
    }
  }

  // ---- What holds of every interleaving, from a fresh process ----

  lemma FreshInv()
    ensures Inv(FRESH)
  {
  }

  /** Two live entries never share an index; a non-empty table means the client is connected. */
  lemma TableIsSound(steps: seq<Step>)
    ensures var c := Run(FRESH, steps); Distinct(c.table) && (c.table != map[] ==> c.life.Connected?)
  {
    hide Run, PcAgrees, Uses, InTurns;
    FreshInv();
    RunKeeps(FRESH, steps);
  }

  /** The clear inside uninit never finds an entry. */
  lemma UninitClearsNothing(steps: seq<Step>)
    ensures var c := Run(FRESH, steps);
            && (c.pc.Clearing? ==> c.table == map[])
            && Apply(c, UninitClear).table == (if c.pc.Clearing? then map[] else c.table)
            && Tally(c.trace).cleared == 0
  {
    hide Run, Ledger, Tally, Reports;
    FreshInv();
    RunKeeps(FRESH, steps);
  }

  /** Every handle goes into the table and out of it in strict turns, and is there after an odd number of them. */
  lemma OneTakerPerEntry(steps: seq<Step>, h: nat)
    ensures var c := Run(FRESH, steps);
            InTurns(Uses(c.trace, h), h in c.table)
  {
    hide Run, PcAgrees, Uses;
    FreshInv();
    RunKeeps(FRESH, steps);
  }

  lemma EntriesConserved(steps: seq<Step>)
    ensures var c := Run(FRESH, steps);
            var n := Tally(c.trace);
            n.inserted == |c.table| + n.closed + n.snapshotted + n.failed
  {
    hide Run, Ledger, Tally, Protocol;
    FreshInv();
    RunKeeps(FRESH, steps);
    Accounts(Run(FRESH, steps));
  }

  lemma Accounts(c: Client)
    requires Ledger(c)
    ensures Balanced(Tally(c.trace), |c.table|)
  {
    hide Tally, Uses;
  }

  /** The last thing that happened to `h`. */
  lemma {:induction false} LastUse(t: seq<Event>, h: nat) returns (k: nat)
    requires Uses(t, h) != []
    ensures k < |t| && Use(t[k], h) == [Uses(t, h)[|Uses(t, h)| - 1]]
    ensures forall j :: k < j < |t| ==> Use(t[j], h) == []
    decreases |t|
  {
    k := |t| - 1;
    if Use(t[k], h) == [] {
      k := LastUse(Front(t), h);
    }
  }

  /** Of a handle put in and taken out in turns, no two takers follow each other. */
  lemma {:induction false} PutBackBetween(t: seq<Event>, i: nat, j: nat, h: nat) returns (k: nat)
    requires Alternating(Uses(t, h)) && i < j < |t| && Takes(t[i], h) && Takes(t[j], h)
    ensures i < k < j && t[k].Insert? && t[k].h == h
    decreases |t|
  {
    var n := |t| - 1;
    UsesPrefix(t, h);
    if j < n {
      k := PutBackBetween(Front(t), i, j, h);
    } else {
      UsesNonEmpty(Front(t), i, h);
      k := LastUse(Front(t), h);
    }
  }

  lemma UsesPrefix(t: seq<Event>, h: nat)
    requires t != [] && Alternating(Uses(t, h))
    ensures Alternating(Uses(Front(t), h))
    ensures Takes(Last(t), h) ==> |Uses(Front(t), h)| % 2 == 1
  {
    assert Uses(t, h)[..|Uses(Front(t), h)|] == Uses(Front(t), h);
    assert forall k :: 0 <= k < |Uses(Front(t), h)| ==> Uses(Front(t), h)[k] == Uses(t, h)[k];
    if Takes(Last(t), h) {
      assert Uses(t, h)[|Uses(Front(t), h)|] == false;
    }
  }

  lemma {:induction false} UsesNonEmpty(t: seq<Event>, i: nat, h: nat)
    requires i < |t| && Takes(t[i], h)
    ensures Uses(t, h) != []
    decreases |t|
  {
    if i < |t| - 1 {
      UsesNonEmpty(Front(t), i, h);
    }
  }

  /** Between two events that take the same handle it was put in again: racing closes of an entry take effect once. */
  lemma NoSecondTaker(steps: seq<Step>, i: nat, j: nat, h: nat) returns (k: nat)
    requires var t := Run(FRESH, steps).trace; i < j < |t| && Takes(t[i], h) && Takes(t[j], h)
    ensures var t := Run(FRESH, steps).trace; i < k < j && t[k].Insert? && t[k].h == h
  {
    hide Run, Uses;
    OneTakerPerEntry(steps, h);
    k := PutBackBetween(Run(FRESH, steps).trace, i, j, h);
  }

  // ---- Who is in the table ----

  predicate PutsIn(c: Client, s: Step, h: nat) {
    s.OpenReserve? && s.h == h && CanReserve(c, s.index, h)
  }

  predicate TakesOut(c: Client, s: Step, h: nat) {
    s == Close(h) || (s.DisconnectTake? && c.pc.Ready?) || (s == OpenFinish(h, false) && h in c.opening)
  }

  lemma StepTable(c: Client, s: Step, h: nat)
    requires Protocol(c)
    ensures h in Apply(c, s).table <==> PutsIn(c, s, h) || (h in c.table && !TakesOut(c, s, h))
  {
    hide Reports, Alternating, IndexOpen;
  }

  /** An address is in use by an open from its reservation to its own finish, whatever that brings. */
  lemma OpeningStep(c: Client, s: Step, h: nat)
    ensures h in Apply(c, s).opening <==> PutsIn(c, s, h) || (h in c.opening && !(s.OpenFinish? && s.h == h))
  {
    hide IndexOpen;
  }

  predicate PutInAt(c: Client, steps: seq<Step>, h: nat, k: nat) {
    k < |steps| && PutsIn(Run(c, steps[..k]), steps[k], h)
  }

  predicate TakenOutAt(c: Client, steps: seq<Step>, h: nat, k: nat) {
    k < |steps| && TakesOut(Run(c, steps[..k]), steps[k], h)
  }

  lemma RunLast(c: Client, steps: seq<Step>)
    requires steps != []
    ensures var n := |steps| - 1; Run(c, steps) == Apply(Run(c, steps[..n]), steps[n])
  {
    hide Apply;
    var n := |steps| - 1;
    assert steps == steps[..n] + [steps[n]] && [steps[n]][1..] == [];
    RunConcat(c, steps[..n], [steps[n]]);
    assert Run(Apply(Run(c, steps[..n]), steps[n]), []) == Apply(Run(c, steps[..n]), steps[n]);
  }

  lemma {:induction false} RunProtocol(c: Client, steps: seq<Step>)
    requires Protocol(c)
    ensures Protocol(Run(c, steps))
    decreases |steps|
  {
    hide Apply, Protocol;
    if steps != [] {
      ProtocolKept(c, steps[0]);
      RunProtocol(Apply(c, steps[0]), steps[1..]);
    }
  }

  /** A handle is in the table exactly when nothing took it out since it was there or was last put in. */
  lemma {:induction false} InTableIff(c: Client, steps: seq<Step>, h: nat)
    requires Protocol(c)
    ensures h in Run(c, steps).table <==>
            || (h in c.table && forall j: nat :: !TakenOutAt(c, steps, h, j))
            || (exists k: nat :: PutInAt(c, steps, h, k) && forall j: nat :: k < j ==> !TakenOutAt(c, steps, h, j))
    decreases |steps|
  {
    hide Run, PutsIn, TakesOut, Protocol;
    if steps == [] {
      assert Run(c, steps) == c by { RunNone(c); }
    } else {
      var n := |steps| - 1;
      var before := steps[..n];
      InTableIff(c, before, h);
      RunLast(c, steps);
      RunProtocol(c, before);
      StepTable(Run(c, before), steps[n], h);
      forall k: nat | k < n
        ensures PutInAt(c, steps, h, k) == PutInAt(c, before, h, k)
        ensures TakenOutAt(c, steps, h, k) == TakenOutAt(c, before, h, k)
      {
        assert steps[..k] == before[..k] && steps[k] == before[k];
      }
      assert PutInAt(c, steps, h, n) <==> PutsIn(Run(c, before), steps[n], h);
      assert TakenOutAt(c, steps, h, n) <==> TakesOut(Run(c, before), steps[n], h);
    }
  }

  lemma RunNone(c: Client)
    ensures Run(c, []) == c
  {
  }

  // ---- When an opened handle is live, and when a closed one may be closed again ----

  /** Only its own open_stream finishes an open. */
  predicate OthersSteps(steps: seq<Step>, h: nat) {
    forall k :: 0 <= k < |steps| ==> !(steps[k].OpenFinish? && steps[k].h == h)
  }

  lemma {:induction false} OthersKeepOpening(c: Client, steps: seq<Step>, h: nat)
    requires OthersSteps(steps, h) && h in c.opening
    ensures h in Run(c, steps).opening
    decreases |steps|
  {
    if steps != [] {
      assert !(steps[0].OpenFinish? && steps[0].h == h);
      OthersKeepOpening(Apply(c, steps[0]), steps[1..], h);
    }
  }

  /** Some step closed `h` or was a disconnect that took the table. */
  predicate Undone(c: Client, steps: seq<Step>, h: nat, k: nat) {
    k < |steps| && (steps[k] == Close(h) || (steps[k].DisconnectTake? && Run(c, steps[..k]).pc.Ready?))
  }

  /**
   An open_stream that succeeds returns a handle that is in the table exactly when, since it reserved
   its entry, nobody closed the handle and no disconnect took the table.
   */
  lemma OpenReturnsLiveHandle(c: Client, index: int, h: nat, steps: seq<Step>)
    requires Protocol(c) && CanReserve(c, index, h) && OthersSteps(steps, h)
    ensures var c1 := Apply(c, OpenReserve(index, h));
            h in Apply(Run(c1, steps), OpenFinish(h, true)).table <==> forall k: nat :: !Undone(c1, steps, h, k)
  {
    hide Run, Protocol;
    var c1 := Apply(c, OpenReserve(index, h));
    ProtocolKept(c, OpenReserve(index, h));
    InTableIff(c1, steps, h);
    forall k: nat
      ensures !PutInAt(c1, steps, h, k) && (TakenOutAt(c1, steps, h, k) <==> Undone(c1, steps, h, k))
    {
      if k < |steps| {
        OthersKeepOpening(c1, steps[..k], h);
      }
    }
  }

  /**
   Closing a handle again takes a stream exactly when, since the first close, its address was given to
   a new stream that nothing has taken out. Otherwise the repeated close does nothing.
   */
  lemma RepeatedClose(c: Client, h: nat, steps: seq<Step>)
    requires Protocol(c)
    ensures var c1 := Apply(c, Close(h));
            var c2 := Run(c1, steps);
            && (Apply(c2, Close(h)) != c2 <==>
                exists k: nat :: PutInAt(c1, steps, h, k) && forall j: nat :: k < j ==> !TakenOutAt(c1, steps, h, j))
            && (Apply(c2, Close(h)) != c2 ==> Last(Apply(c2, Close(h)).trace) == ByClose(h))
  {
    hide Run, Protocol, PutInAt, TakenOutAt;
    ProtocolKept(c, Close(h));
    InTableIff(Apply(c, Close(h)), steps, h);
  }

  /** The user hears CONNECTED and DISCONNECTED in strict alternation, CONNECTED first. */
  lemma ReportsAlternate(steps: seq<Step>)
    ensures Alternating(Reports(Run(FRESH, steps).trace))
  {
    hide Run, Ledger, Uses, InTurns;
    FreshInv();
    RunKeeps(FRESH, steps);
  }

  // ---- Who is told ----

  function Told(t: seq<Event>, up: bool): nat {
    if t == [] then 0 else Told(Front(t), up) + if Last(t) == Report(up) then 1 else 0
  }

  /** A connect that commits, and whose caller has a callback. */
  predicate Commits(c: Client, s: Step) { s == ConnectFinish(true) && c.pc.Starting? && c.cb }

  /** A disconnect that finds a connection whose caller has a callback. */
  predicate Leaves(c: Client, s: Step) {
    s.DisconnectTake? && c.pc.Ready? && (c.life.Connected? || c.life.Connecting?) && c.hasCb && c.cb
  }

  function CountCommits(c: Client, steps: seq<Step>): nat
    decreases |steps|
  {
    if steps == [] then 0 else (if Commits(c, steps[0]) then 1 else 0) + CountCommits(Apply(c, steps[0]), steps[1..])
  }

  function CountLeaves(c: Client, steps: seq<Step>): nat
    decreases |steps|
  {
    if steps == [] then 0 else (if Leaves(c, steps[0]) then 1 else 0) + CountLeaves(Apply(c, steps[0]), steps[1..])
  }

  /** A callback that is due and has not been made. */
  function Due(c: Client, up: bool): nat {
    match c.pc
    case Announcing => if up && c.cb then 1 else 0
    case Leaving(tell, _) => if !up && tell then 1 else 0
    case _ => 0
  }

  lemma ToldGrows(c: Client, s: Step, up: bool)
    ensures var t := Apply(c, s).trace;
            Told(t, up) == Told(c.trace, up) + if t != c.trace && Last(t) == Report(up) then 1 else 0
  {
    TraceGrows(c, s);
    hide News, Apply;
  }

  lemma ReportStep(c: Client, s: Step)
    ensures var r := Apply(c, s);
            && Told(r.trace, true) + Due(r, true) ==
               Told(c.trace, true) + Due(c, true) + (if Commits(c, s) then 1 else 0)
            && Told(r.trace, false) + Due(r, false) ==
               Told(c.trace, false) + Due(c, false) + (if Leaves(c, s) then 1 else 0)
  {
    ToldGrows(c, s, true);
    ToldGrows(c, s, false);
    hide Told, IndexOpen;
  }

  lemma {:induction false} ReportsAdd(c: Client, steps: seq<Step>)
    ensures var r := Run(c, steps);
            && Told(r.trace, true) + Due(r, true) == Told(c.trace, true) + Due(c, true) + CountCommits(c, steps)
            && Told(r.trace, false) + Due(r, false) == Told(c.trace, false) + Due(c, false) + CountLeaves(c, steps)
    decreases |steps|
  {
    hide Apply, Told, Due, Commits, Leaves;
    if steps != [] {
      ReportStep(c, steps[0]);
      ReportsAdd(Apply(c, steps[0]), steps[1..]);
    }
  }

  /**
   CONNECTED is reported once for each connect that commits with a callback, DISCONNECTED once for each
   disconnect that ends such a connection, and nothing else reports: not a failed connect, and not a
   disconnect with nothing to leave. At most one report is due and not yet made.
   */
  lemma ReportsCounted(steps: seq<Step>)
    ensures var c := Run(FRESH, steps);
            && Told(c.trace, true) + Due(c, true) == CountCommits(FRESH, steps)
            && Told(c.trace, false) + Due(c, false) == CountLeaves(FRESH, steps)
            && Due(c, true) + Due(c, false) <= 1
  {
    hide Run, CountCommits, CountLeaves;
    ReportsAdd(FRESH, steps);
  }

  // ---- Where the lifecycle stands ----

  /** Steps that change the lifecycle: each is a step of a call that stands at that point. */
  predicate Initialises(c: Client, s: Step) { s == Init(true) && c.pc.Ready? && c.life.Uninit? }

  predicate Clears(c: Client, s: Step) { s.UninitClear? && c.pc.Clearing? }

  predicate Begins(c: Client, s: Step) { s.ConnectApply? && c.pc.Ready? && c.life.Inited? }

  predicate Lands(c: Client, s: Step) { s == ConnectFinish(true) && c.pc.Starting? }

  predicate RollsBack(c: Client, s: Step) { s == ConnectFinish(false) && c.pc.Starting? }

  predicate Drops(c: Client, s: Step) { s.DisconnectTake? && c.pc.Ready? && c.life.Connected? }

  /** The four states by what leads there and what leads away; a failed connect leads back to Inited. */
  lemma LifeStep(c: Client, s: Step)
    requires Protocol(c)
    ensures var r := Apply(c, s);
            && (r.life.Uninit? <==> Clears(c, s) || (c.life.Uninit? && !Initialises(c, s)))
            && (r.life.Inited? <==>
                  || Initialises(c, s) || RollsBack(c, s) || Drops(c, s)
                  || (c.life.Inited? && !Begins(c, s) && !Clears(c, s)))
            && (r.life.Connecting? <==> Begins(c, s) || (c.life.Connecting? && !Lands(c, s) && !RollsBack(c, s)))
            && (r.life.Connected? <==> Lands(c, s) || (c.life.Connected? && !Drops(c, s)))
            && r.cb == if Begins(c, s) then s.cb else c.cb
  {
    hide Reports, Alternating, IndexOpen;
  }

  predicate InitialisesAt(c: Client, steps: seq<Step>, k: nat) {
    k < |steps| && Initialises(Run(c, steps[..k]), steps[k])
  }

  predicate ClearsAt(c: Client, steps: seq<Step>, k: nat) {
    k < |steps| && Clears(Run(c, steps[..k]), steps[k])
  }

  predicate LandsAt(c: Client, steps: seq<Step>, k: nat) {
    k < |steps| && Lands(Run(c, steps[..k]), steps[k])
  }

  predicate DropsAt(c: Client, steps: seq<Step>, k: nat) {
    k < |steps| && Drops(Run(c, steps[..k]), steps[k])
  }

  /** The client is uninitialised exactly when no init succeeded since it was so or since an uninit last cleared it. */
  lemma {:induction false} UninitIff(c: Client, steps: seq<Step>)
    requires Protocol(c)
    ensures Run(c, steps).life.Uninit? <==>
            || (c.life.Uninit? && forall j: nat :: !InitialisesAt(c, steps, j))
            || (exists k: nat :: ClearsAt(c, steps, k) && forall j: nat :: k < j ==> !InitialisesAt(c, steps, j))
    decreases |steps|
  {
    hide Run, Protocol, Initialises, Clears, Begins, Lands, RollsBack, Drops;
    if steps == [] {
      assert Run(c, steps) == c by { RunNone(c); }
    } else {
      var n := |steps| - 1;
      var before := steps[..n];
      UninitIff(c, before);
      RunLast(c, steps);
      RunProtocol(c, before);
      LifeStep(Run(c, before), steps[n]);
      forall k: nat | k < n
        ensures InitialisesAt(c, steps, k) == InitialisesAt(c, before, k)
        ensures ClearsAt(c, steps, k) == ClearsAt(c, before, k)
      {
        assert steps[..k] == before[..k] && steps[k] == before[k];
      }
      assert InitialisesAt(c, steps, n) <==> Initialises(Run(c, before), steps[n]);
      assert ClearsAt(c, steps, n) <==> Clears(Run(c, before), steps[n]);
      NotBoth(Run(c, before), steps[n]);
    }
  }

  lemma NotBoth(c: Client, s: Step)
    ensures !(Initialises(c, s) && Clears(c, s)) && !(Lands(c, s) && Drops(c, s))
  {
  }

  /** The client is connected exactly when no disconnect took effect since it was so or since the last commit. */
  lemma {:induction false} ConnectedIff(c: Client, steps: seq<Step>)
    requires Protocol(c)
    ensures Run(c, steps).life.Connected? <==>
            || (c.life.Connected? && forall j: nat :: !DropsAt(c, steps, j))
            || (exists k: nat :: LandsAt(c, steps, k) && forall j: nat :: k < j ==> !DropsAt(c, steps, j))
    decreases |steps|
  {
    hide Run, Protocol, Initialises, Clears, Begins, Lands, RollsBack, Drops;
    if steps == [] {
      assert Run(c, steps) == c by { RunNone(c); }
    } else {
      var n := |steps| - 1;
      var before := steps[..n];
      ConnectedIff(c, before);
      RunLast(c, steps);
      RunProtocol(c, before);
      LifeStep(Run(c, before), steps[n]);
      forall k: nat | k < n
        ensures LandsAt(c, steps, k) == LandsAt(c, before, k)
        ensures DropsAt(c, steps, k) == DropsAt(c, before, k)
      {
        assert steps[..k] == before[..k] && steps[k] == before[k];
      }
      assert LandsAt(c, steps, n) <==> Lands(Run(c, before), steps[n]);
      assert DropsAt(c, steps, n) <==> Drops(Run(c, before), steps[n]);
      NotBoth(Run(c, before), steps[n]);
    }
  }

  /**
   Between calls of an initialised client that is not connected, a connect is always accepted: after a
   failed connect no init is needed.
   */
  lemma ConnectAccepted(steps: seq<Step>, cb: bool)
    ensures var c := Run(FRESH, steps);
            c.pc.Ready? && !c.life.Uninit? && !c.life.Connected? ==>
              Apply(c, ConnectApply(cb)).life.Connecting? && Apply(c, ConnectApply(cb)).pc.Starting?
  {
    hide Run, Protocol, Apply;
    assert Protocol(FRESH) by { FreshInv(); }
    RunProtocol(FRESH, steps);
    var c := Run(FRESH, steps);
    if c.pc.Ready? && !c.life.Uninit? && !c.life.Connected? {
      ReadyAccepts(c, cb);
    }
  }

  lemma ReadyAccepts(c: Client, cb: bool)
    requires Protocol(c) && c.pc.Ready? && !c.life.Uninit? && !c.life.Connected?
    ensures Apply(c, ConnectApply(cb)).life.Connecting? && Apply(c, ConnectApply(cb)).pc.Starting?
  {
    hide Reports, Alternating, IndexOpen;
  }

  // ---- Two runs ----

  function Connecting4(): seq<Step> {
    [Init(true), ConnectApply(true), ConnectFinish(true), ConnectReport]
  }

  lemma ConnectedByFour()
    ensures Run(FRESH, Connecting4()) == FRESH.(life := Connected, hasCb := true, cb := true, trace := [Report(true)])
  {
    RunFour(FRESH, Init(true), ConnectApply(true), ConnectFinish(true), ConnectReport);
  }

  /**
   open_stream can return OK with a handle that is already gone: a disconnect between its two
   critical sections takes the entry, and the second section does not look.
   */
  lemma OpenMayReturnDeadHandle()
    ensures var rest := [OpenReserve(7, 0), DisconnectTake(false), DisconnectReport, OpenFinish(0, true)];
            var c := Run(FRESH, Connecting4() + rest);
            0 !in c.table && 0 !in c.opening && Insert(0, 7) in c.trace
  {
    RunConcat(FRESH, Connecting4(), [OpenReserve(7, 0), DisconnectTake(false), DisconnectReport, OpenFinish(0, true)]);
    ConnectedByFour();
    var c := FRESH.(life := Connected, hasCb := true, cb := true, trace := [Report(true)]);
    RunFour(c, OpenReserve(7, 0), DisconnectTake(false), DisconnectReport, OpenFinish(0, true));
    var d := Apply(c, OpenReserve(7, 0));
    assert d.table == map[0 := 7] && d.opening == {0};
    hide Run;
  }

  /** A second close of handle 0 takes stream 8, which was opened at the address stream 7 had. */
  lemma StaleCloseTakesNewStream()
    ensures var first := [OpenReserve(7, 0), OpenFinish(0, true), Close(0), OpenReserve(8, 0)];
            var c := Run(FRESH, Connecting4() + first);
            c.table == map[0 := 8] && Apply(c, Close(0)).table == map[]
  {
    var first := [OpenReserve(7, 0), OpenFinish(0, true), Close(0), OpenReserve(8, 0)];
    RunConcat(FRESH, Connecting4(), first);
    ConnectedByFour();
    var c := FRESH.(life := Connected, hasCb := true, cb := true, trace := [Report(true)]);
    RunFour(c, OpenReserve(7, 0), OpenFinish(0, true), Close(0), OpenReserve(8, 0));
    var d := Apply(Apply(Apply(c, OpenReserve(7, 0)), OpenFinish(0, true)), Close(0));
    assert d.table == map[] && d.opening == {} && d.life.Connected?;
    hide Run;
  }

  lemma RunFour(c: Client, s: Step, t: Step, u: Step, v: Step)
    ensures Run(c, [s, t, u, v]) == Apply(Apply(Apply(Apply(c, s), t), u), v)
  {
    hide Apply;
    assert [s, t, u, v][1..] == [t, u, v] && [t, u, v][1..] == [u, v] && [u, v][1..] == [v] && [v][1..] == [];
    assert Run(c, [s, t, u, v]) == Run(Apply(c, s), [t, u, v]);
    assert Run(Apply(c, s), [t, u, v]) == Run(Apply(Apply(c, s), t), [u, v]);
    assert Run(Apply(Apply(c, s), t), [u, v]) == Run(Apply(Apply(Apply(c, s), t), u), [v]);
  }
}
