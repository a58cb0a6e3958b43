/**
 The latency report over a push log and a pull log: lines are folded into dictionaries, matched by
 trace id and by RTP timestamp, and the measured intervals are collected per metric.
 */
module LatencyPairing {
  import opened Options
  import opened Dicts
  import opened LatencyStats
  import opened RtpOffset

  datatype Tx = Tx(trace: int, mjpeg: int, v4l2: int, onFrame: int, encDone: int, after: int, wall: int)
  datatype Rx = Rx(sink: int, argb: int, callback: int, wall: int)

  /** A line of either log after the regular expressions. */
  datatype PushLine = Sent(rtp: int, tx: Tx) | PushNoise
  datatype PullLine =
    | Received(rtp: int, trace: int, rx: Rx)
    | ReceivedLegacy(rtp: int, rx: Rx)
    | Presented(trace: int, time: int)
    | PullNoise

  // ---- folding ----

  /** The assignments a line makes, in order, to the dictionary in question. */
  function RtpSent(log: seq<PushLine>): seq<(int, Tx)> {
    if log == [] then []
    else RtpSent(log[..|log| - 1]) + (match log[|log| - 1] case Sent(rtp, tx) => [(rtp, tx)] case PushNoise => [])
  }

  function TraceSent(log: seq<PushLine>): seq<(int, Tx)> {
    if log == [] then []
    else
      TraceSent(log[..|log| - 1])
      + (match log[|log| - 1]
         case Sent(rtp, tx) => (if tx.trace != 0 then [(tx.trace, tx)] else [])
         case PushNoise => [])
  }

  function RtpReceived(log: seq<PullLine>): seq<(int, Rx)> {
    if log == [] then []
    else
      RtpReceived(log[..|log| - 1])
      + (match log[|log| - 1]
         case Received(rtp, trace, rx) => [(rtp, rx)]
         case ReceivedLegacy(rtp, rx) => [(rtp, rx)]
         case _ => [])
  }

  function TraceReceived(log: seq<PullLine>): seq<(int, Rx)> {
    if log == [] then []
    else
      TraceReceived(log[..|log| - 1])
      + (match log[|log| - 1]
         case Received(rtp, trace, rx) => (if trace != 0 then [(trace, rx)] else [])
         case _ => [])
  }

  function Presentations(log: seq<PullLine>): seq<(int, int)> {
    if log == [] then []
    else
      Presentations(log[..|log| - 1])
      + (match log[|log| - 1]
         case Presented(trace, time) => (if trace != 0 then [(trace, time)] else [])
         case _ => [])
  }

  function Firsts<K, V>(ps: seq<(K, V)>): seq<K> {
    seq(|ps|, i requires 0 <= i < |ps| => ps[i].0)
  }

  ghost predicate NoLater<K, V>(ps: seq<(K, V)>, i: nat)
    requires i < |ps|
  {
    forall j :: i < j < |ps| ==> ps[j].0 != ps[i].0
  }

  ghost predicate NoEarlier<K, V>(ps: seq<(K, V)>, i: nat)
    requires i < |ps|
  {
    forall j :: 0 <= j < i ==> ps[j].0 != ps[i].0
  }

  /** d holds, for each key, the value of the last pair with that key; keys stand where they came first. */
  ghost predicate LastWins<K(!new), V>(d: Dict<K, V>, ps: seq<(K, V)>) {
    && d.Valid()
    && d.keys == FirstSeen(Firsts(ps))
    && forall i :: 0 <= i < |ps| && NoLater(ps, i) ==> d.Get(ps[i].0) == Some(ps[i].1)
  }

  /** d holds, for each key, the value of the first pair with that key. */
  ghost predicate FirstWins<K(!new), V>(d: Dict<K, V>, ps: seq<(K, V)>) {
    && d.Valid()
    && d.keys == FirstSeen(Firsts(ps))
    && forall i :: 0 <= i < |ps| && NoEarlier(ps, i) ==> d.Get(ps[i].0) == Some(ps[i].1)
  }

  lemma KeysGrow<K(!new), V>(d: Dict<K, V>, ps: seq<(K, V)>, p: (K, V))
    requires d.Valid() && d.keys == FirstSeen(Firsts(ps))
    ensures FirstSeen(Firsts(ps + [p])) == if p.0 in d.at then d.keys else d.keys + [p.0]
  {
    var ks := Firsts(ps + [p]);
    assert ks[..|ps|] == Firsts(ps);
    assert p.0 in d.at <==> p.0 in d.keys;
  }

  lemma LastBefore<K, V>(ps: seq<(K, V)>, p: (K, V), i: nat)
    requires i < |ps| && NoLater(ps + [p], i)
    ensures NoLater(ps, i) && p.0 != ps[i].0
  {
    var qs := ps + [p];
    assert forall j :: i <= j < |ps| ==> qs[j] == ps[j];
    assert qs[|ps|] == p;
  }

  lemma PutKeepsLast<K(!new), V>(d: Dict<K, V>, ps: seq<(K, V)>, p: (K, V))
    requires LastWins(d, ps)
    ensures LastWins(d.Put(p.0, p.1), ps + [p])
  {
    KeysGrow(d, ps, p);
    hide FirstSeen, Firsts, NoLater, Distinct;
    var qs, e := ps + [p], d.Put(p.0, p.1);
    forall i | 0 <= i < |qs| && NoLater(qs, i)
      ensures e.Get(qs[i].0) == Some(qs[i].1)
    {
      if i < |ps| {
        LastBefore(ps, p, i);
        assert d.Get(ps[i].0) == Some(ps[i].1);
      }
    }
  }

  lemma FirstBefore<K, V>(ps: seq<(K, V)>, p: (K, V), i: nat)
    requires i < |ps| && NoEarlier(ps + [p], i)
    ensures NoEarlier(ps, i)
  {
    var qs := ps + [p];
    assert forall j :: 0 <= j <= i ==> qs[j] == ps[j];
  }

  lemma NewKey<K, V>(ps: seq<(K, V)>, p: (K, V))
    requires NoEarlier(ps + [p], |ps|)
    ensures p.0 !in Firsts(ps)
  {
    var qs := ps + [p];
    assert forall k :: 0 <= k < |ps| ==> Firsts(ps)[k] == qs[k].0;
  }

  lemma PutFirstKeepsFirst<K(!new), V>(d: Dict<K, V>, ps: seq<(K, V)>, p: (K, V))
    requires FirstWins(d, ps)
    ensures FirstWins(d.PutFirst(p.0, p.1), ps + [p])
  {
    KeysGrow(d, ps, p);
    hide FirstSeen, Firsts, NoEarlier, Distinct;
    var qs, e := ps + [p], d.PutFirst(p.0, p.1);
    forall i | 0 <= i < |qs| && NoEarlier(qs, i)
      ensures e.Get(qs[i].0) == Some(qs[i].1)
    {
      if i < |ps| {
        FirstBefore(ps, p, i);
        assert d.Get(ps[i].0) == Some(ps[i].1);
      } else {
        NewKey(ps, p);
      }
    }
  }

  lemma PushStep(log: seq<PushLine>, n: nat)
    requires n < |log|
    ensures var r, t := RtpSent(log[..n]), TraceSent(log[..n]);
            match log[n]
            case Sent(rtp, tx) =>
              && RtpSent(log[..n + 1]) == r + [(rtp, tx)]
              && TraceSent(log[..n + 1]) == if tx.trace != 0 then t + [(tx.trace, tx)] else t
            case PushNoise => RtpSent(log[..n + 1]) == r && TraceSent(log[..n + 1]) == t
  {
    assert log[..n + 1][..n] == log[..n];
  }

  lemma PullStep(log: seq<PullLine>, n: nat)
    requires n < |log|
    ensures var r, t, p := RtpReceived(log[..n]), TraceReceived(log[..n]), Presentations(log[..n]);
            var r', t', p' := RtpReceived(log[..n + 1]), TraceReceived(log[..n + 1]), Presentations(log[..n + 1]);
            match log[n]
            case Received(rtp, trace, rx) =>
              r' == r + [(rtp, rx)] && t' == (if trace != 0 then t + [(trace, rx)] else t) && p' == p
            case ReceivedLegacy(rtp, rx) => r' == r + [(rtp, rx)] && t' == t && p' == p
            case Presented(trace, time) => r' == r && t' == t && p' == if trace != 0 then p + [(trace, time)] else p
            case PullNoise => r' == r && t' == t && p' == p
  {
    assert log[..n + 1][..n] == log[..n];
  }

  method FoldPush(log: seq<PushLine>) returns (byRtp: Dict<int, Tx>, byTrace: Dict<int, Tx>)
    ensures LastWins(byRtp, RtpSent(log)) && LastWins(byTrace, TraceSent(log))
  {
    byRtp, byTrace := EmptyDict(), EmptyDict();
    for n := 0 to |log|
      invariant LastWins(byRtp, RtpSent(log[..n])) && LastWins(byTrace, TraceSent(log[..n]))
    {
      ghost var r, t := RtpSent(log[..n]), TraceSent(log[..n]);
      PushStep(log, n);
      hide LastWins, RtpSent, TraceSent;
      match log[n] {
        case Sent(rtp, tx) =>
          PutKeepsLast(byRtp, r, (rtp, tx));
          byRtp := byRtp.Put(rtp, tx);
          if tx.trace != 0 {
            PutKeepsLast(byTrace, t, (tx.trace, tx));
            byTrace := byTrace.Put(tx.trace, tx);
          }
        case PushNoise =>
      }
    }
    assert log[..|log|] == log;
  }

  method FoldPull(log: seq<PullLine>) returns (byRtp: Dict<int, Rx>, byTrace: Dict<int, Rx>, shown: Dict<int, int>)
    ensures FirstWins(byRtp, RtpReceived(log)) && FirstWins(byTrace, TraceReceived(log))
    ensures FirstWins(shown, Presentations(log))
  {
    byRtp, byTrace, shown := EmptyDict(), EmptyDict(), EmptyDict();
    for n := 0 to |log|
      invariant FirstWins(byRtp, RtpReceived(log[..n])) && FirstWins(byTrace, TraceReceived(log[..n]))
      invariant FirstWins(shown, Presentations(log[..n]))
    {
      ghost var r, t, p := RtpReceived(log[..n]), TraceReceived(log[..n]), Presentations(log[..n]);
      PullStep(log, n);
      hide FirstWins, RtpReceived, TraceReceived, Presentations;
      match log[n] {
        case Received(rtp, trace, rx) =>
          PutFirstKeepsFirst(byRtp, r, (rtp, rx));
          byRtp := byRtp.PutFirst(rtp, rx);
          if trace != 0 {
            PutFirstKeepsFirst(byTrace, t, (trace, rx));
            byTrace := byTrace.PutFirst(trace, rx);
          }
        case ReceivedLegacy(rtp, rx) =>
          PutFirstKeepsFirst(byRtp, r, (rtp, rx));
          byRtp := byRtp.PutFirst(rtp, rx);
        case Presented(trace, time) =>
          if trace != 0 {
            PutFirstKeepsFirst(shown, p, (trace, time));
            shown := shown.PutFirst(trace, time);
          }
        case PullNoise =>
      }
    }
    assert log[..|log|] == log;
  }

  lemma {:induction false} LastOf<K, V>(ps: seq<(K, V)>, k: K) returns (i: nat)
    requires k in Firsts(ps)
    ensures i < |ps| && ps[i].0 == k && NoLater(ps, i)
  {
    i := |ps| - 1;
    if ps[i].0 != k {
      assert Firsts(ps) == Firsts(ps[..i]) + [ps[i].0];
      i := LastOf(ps[..i], k);
      assert forall j :: i <= j < |ps| - 1 ==> ps[..|ps| - 1][j] == ps[j];
    }
  }

  lemma {:induction false} FirstOf<K, V>(ps: seq<(K, V)>, k: K) returns (i: nat)
    requires k in Firsts(ps)
    ensures i < |ps| && ps[i].0 == k && NoEarlier(ps, i)
  {
    var n := |ps| - 1;
    assert Firsts(ps) == Firsts(ps[..n]) + [ps[n].0];
    if k in Firsts(ps[..n]) {
      i := FirstOf(ps[..n], k);
      assert forall j :: 0 <= j <= i ==> ps[..n][j] == ps[j];
    } else {
      i := n;
      assert forall j :: 0 <= j < n ==> Firsts(ps[..n])[j] == ps[j].0;
    }
  }

  /** The specification leaves one dictionary. */
  lemma LastWinsUnique<K(!new), V>(d: Dict<K, V>, e: Dict<K, V>, ps: seq<(K, V)>)
    requires LastWins(d, ps) && LastWins(e, ps)
    ensures d == e
  {
    forall k | k in d.at ensures k in e.at && d.at[k] == e.at[k] {
      assert k in d.keys;
      var i := LastOf(ps, k);
      assert d.Get(k) == e.Get(k) == Some(ps[i].1);
    }
    assert forall k :: k in e.at ==> k in e.keys && k in d.at;
    assert d.at == e.at;
  }

  lemma FirstWinsUnique<K(!new), V>(d: Dict<K, V>, e: Dict<K, V>, ps: seq<(K, V)>)
    requires FirstWins(d, ps) && FirstWins(e, ps)
    ensures d == e
  {
    forall k | k in d.at ensures k in e.at && d.at[k] == e.at[k] {
      assert k in d.keys;
      var i := FirstOf(ps, k);
      assert d.Get(k) == e.Get(k) == Some(ps[i].1);
    }
    assert forall k :: k in e.at ==> k in e.keys && k in d.at;
    assert d.at == e.at;
  }

  function LastDict<K(==,!new), V>(ps: seq<(K, V)>): Dict<K, V> {
    if ps == [] then EmptyDict() else LastDict(ps[..|ps| - 1]).Put(ps[|ps| - 1].0, ps[|ps| - 1].1)
  }

  function FirstDict<K(==,!new), V>(ps: seq<(K, V)>): Dict<K, V> {
    if ps == [] then EmptyDict() else FirstDict(ps[..|ps| - 1]).PutFirst(ps[|ps| - 1].0, ps[|ps| - 1].1)
  }

  lemma DictStep<K(!new), V>(ps: seq<(K, V)>)
    requires ps != []
    ensures var n := |ps| - 1;
            && LastDict(ps) == LastDict(ps[..n]).Put(ps[n].0, ps[n].1)
            && FirstDict(ps) == FirstDict(ps[..n]).PutFirst(ps[n].0, ps[n].1)
  {
    hide Dict<K, V>.Put, Dict<K, V>.PutFirst, Dict<K, V>.Valid;
  }

  lemma EmptyWins<K(!new), V>()
    ensures LastWins<K, V>(LastDict([]), []) && FirstWins<K, V>(FirstDict([]), [])
  {
  }

  lemma {:induction false} LastDictLastWins<K(!new), V>(ps: seq<(K, V)>)
    ensures LastWins(LastDict(ps), ps)
  {
    hide LastWins, FirstWins, LastDict, FirstDict;
    if ps == [] {
      EmptyWins<K, V>();
    } else {
      var n := |ps| - 1;
      LastDictLastWins(ps[..n]);
      PutKeepsLast(LastDict(ps[..n]), ps[..n], ps[n]);
      DictStep(ps);
      assert ps == ps[..n] + [ps[n]];
    }
  }

  lemma {:induction false} FirstDictFirstWins<K(!new), V>(ps: seq<(K, V)>)
    ensures FirstWins(FirstDict(ps), ps)
  {
    hide LastWins, FirstWins, LastDict, FirstDict;
    if ps == [] {
      EmptyWins<K, V>();
    } else {
      var n := |ps| - 1;
      FirstDictFirstWins(ps[..n]);
      PutFirstKeepsFirst(FirstDict(ps[..n]), ps[..n], ps[n]);
      DictStep(ps);
      assert ps == ps[..n] + [ps[n]];
    }
  }

  // ---- intervals ----

  datatype Metric =
    | WallMjpegToSink
    | V4l2ToSink
    | V4l2ToPresent
    | MjpegToSink
    | MjpegToPresent
    | OnFrameToSink
    | MjpegToArgb
    | MjpegToCallback
    | CallbackToPresent
    | SinkToArgb
    | ArgbToCallback

  type Record = map<Metric, int>

  datatype Instant = Wall | Mjpeg | V4l2 | OnFrame | Sink | Argb | Callback | Present

  function From(m: Metric): Instant {
    match m
    case WallMjpegToSink => Wall
    case V4l2ToSink => V4l2
    case V4l2ToPresent => V4l2
    case MjpegToSink => Mjpeg
    case MjpegToPresent => Mjpeg
    case OnFrameToSink => OnFrame
    case MjpegToArgb => Mjpeg
    case MjpegToCallback => Mjpeg
    case CallbackToPresent => Callback
    case SinkToArgb => Sink
    case ArgbToCallback => Argb
  }

  function To(m: Metric): Instant {
    match m
    case WallMjpegToSink => Wall
    case V4l2ToSink => Sink
    case V4l2ToPresent => Present
    case MjpegToSink => Sink
    case MjpegToPresent => Present
    case OnFrameToSink => Sink
    case MjpegToArgb => Argb
    case MjpegToCallback => Callback
    case CallbackToPresent => Present
    case SinkToArgb => Argb
    case ArgbToCallback => Callback
  }

  /** The reading an interval starts from; sink and argb count whatever they read, the others when they are set. */
  function Start(m: Metric, tx: Tx, rx: Rx): Option<int> {
    match From(m)
    case Wall => if tx.wall > 0 then Some(tx.wall) else None
    case Mjpeg => if tx.mjpeg > 0 then Some(tx.mjpeg) else None
    case V4l2 => if tx.v4l2 > 0 then Some(tx.v4l2) else None
    case OnFrame => if tx.onFrame > 0 then Some(tx.onFrame) else None
    case Sink => Some(rx.sink)
    case Argb => Some(rx.argb)
    case Callback => if rx.callback > 0 then Some(rx.callback) else None
    case Present => None
  }

  function Finish(m: Metric, rx: Rx, shown: Option<int>): Option<int> {
    match To(m)
    case Wall => if rx.wall > 0 then Some(rx.wall) else None
    case Sink => Some(rx.sink)
    case Argb => Some(rx.argb)
    case Callback => Some(rx.callback)
    case Present => shown
    case _ => None
  }

  /** The interval a metric measures on one pair; only the wall clocks of two machines may run backwards. */
  function Interval(m: Metric, tx: Tx, rx: Rx, shown: Option<int>): (d: Option<int>)
    ensures m != WallMjpegToSink && d.Some? ==> d.value >= 0
  {
    match (Start(m, tx, rx), Finish(m, rx, shown))
    case (Some(a), Some(b)) => if m == WallMjpegToSink || b >= a then Some(b - a) else None
    case _ => None
  }

  function Lookup(rec: Record, m: Metric): Option<int> {
    if m in rec then Some(rec[m]) else None
  }

  ghost predicate Measures(rec: Record, tx: Tx, rx: Rx, shown: Option<int>) {
    forall m :: Lookup(rec, m) == Interval(m, tx, rx, shown)
  }

  method DeltasToSink(tx: Tx, rx: Rx) returns (out: Record)
    ensures forall m :: Lookup(out, m) == if To(m) == Sink || To(m) == Wall then Interval(m, tx, rx, None) else None
  {
    out := map[];
    if tx.wall > 0 && rx.wall > 0 {
      out := out[WallMjpegToSink := rx.wall - tx.wall];
    }
    if tx.mjpeg > 0 && rx.sink >= tx.mjpeg {
      out := out[MjpegToSink := rx.sink - tx.mjpeg];
    }
    if tx.v4l2 > 0 && rx.sink >= tx.v4l2 {
      out := out[V4l2ToSink := rx.sink - tx.v4l2];
    }
    if tx.onFrame > 0 && rx.sink >= tx.onFrame {
      out := out[OnFrameToSink := rx.sink - tx.onFrame];
    }
  }

  method CollectDeltas(tx: Tx, rx: Rx) returns (out: Record)
    ensures Measures(out, tx, rx, None)
  {
    var early := DeltasToSink(tx, rx);
    out := early;
    if tx.mjpeg > 0 && rx.argb >= tx.mjpeg {
      out := out[MjpegToArgb := rx.argb - tx.mjpeg];
    }
    if tx.mjpeg > 0 && rx.callback >= tx.mjpeg {
      out := out[MjpegToCallback := rx.callback - tx.mjpeg];
    }
    if rx.argb >= rx.sink {
      out := out[SinkToArgb := rx.argb - rx.sink];
    }
    if rx.callback >= rx.argb {
      out := out[ArgbToCallback := rx.callback - rx.argb];
    }
    forall m
      ensures Lookup(out, m) == Interval(m, tx, rx, None)
    {
      assert Lookup(early, m) == if To(m) == Sink || To(m) == Wall then Interval(m, tx, rx, None) else None;
    }
  }

  method AddPresentation(rec: Record, tx: Tx, rx: Rx, shown: Option<int>) returns (out: Record)
    requires Measures(rec, tx, rx, None)
    ensures Measures(out, tx, rx, shown)
  {
    out := rec;
    if shown.Some? && tx.v4l2 > 0 && shown.value >= tx.v4l2 {
      out := out[V4l2ToPresent := shown.value - tx.v4l2];
    }
    if shown.Some? && tx.mjpeg > 0 && shown.value >= tx.mjpeg {
      out := out[MjpegToPresent := shown.value - tx.mjpeg];
    }
    if shown.Some? && rx.callback > 0 && shown.value >= rx.callback {
      out := out[CallbackToPresent := shown.value - rx.callback];
    }
    forall m
      ensures Lookup(out, m) == Interval(m, tx, rx, shown)
    {
      assert Lookup(rec, m) == Interval(m, tx, rx, None);
      WithoutPresentation(m, tx, rx, shown);
      if To(m) != Present {
        hide Interval;
      }
    }
  }

  lemma WithoutPresentation(m: Metric, tx: Tx, rx: Rx, shown: Option<int>)
    ensures Interval(m, tx, rx, None) == if To(m) == Present then None else Interval(m, tx, rx, shown)
  {
  }

  function Span(measurable: bool, from: int, to: int): Option<int> {
    if measurable && to >= from then Some(to - from) else None
  }

  lemma ToSinkIntervals(tx: Tx, rx: Rx, shown: Option<int>)
    ensures Interval(WallMjpegToSink, tx, rx, shown) ==
            if tx.wall > 0 && rx.wall > 0 then Some(rx.wall - tx.wall) else None
    ensures Interval(MjpegToSink, tx, rx, shown) == Span(tx.mjpeg > 0, tx.mjpeg, rx.sink)
    ensures Interval(V4l2ToSink, tx, rx, shown) == Span(tx.v4l2 > 0, tx.v4l2, rx.sink)
    ensures Interval(OnFrameToSink, tx, rx, shown) == Span(tx.onFrame > 0, tx.onFrame, rx.sink)
  {
  }

  lemma StageIntervals(tx: Tx, rx: Rx, shown: Option<int>)
    ensures Interval(MjpegToArgb, tx, rx, shown) == Span(tx.mjpeg > 0, tx.mjpeg, rx.argb)
    ensures Interval(MjpegToCallback, tx, rx, shown) == Span(tx.mjpeg > 0, tx.mjpeg, rx.callback)
    ensures Interval(SinkToArgb, tx, rx, shown) == Span(true, rx.sink, rx.argb)
    ensures Interval(ArgbToCallback, tx, rx, shown) == Span(true, rx.argb, rx.callback)
  {
  }

  lemma PresentIntervals(tx: Tx, rx: Rx, shown: Option<int>)
    ensures shown.Some? ==>
              && Interval(V4l2ToPresent, tx, rx, shown) == Span(tx.v4l2 > 0, tx.v4l2, shown.value)
              && Interval(MjpegToPresent, tx, rx, shown) == Span(tx.mjpeg > 0, tx.mjpeg, shown.value)
              && Interval(CallbackToPresent, tx, rx, shown) == Span(rx.callback > 0, rx.callback, shown.value)
    ensures shown.None? ==>
              forall m :: m in {V4l2ToPresent, MjpegToPresent, CallbackToPresent} ==>
                Interval(m, tx, rx, shown) == None
  {
  }

  /** The eleven metrics one by one. */
  lemma IntervalsAre(tx: Tx, rx: Rx, shown: Option<int>)
    ensures Interval(WallMjpegToSink, tx, rx, shown) ==
            if tx.wall > 0 && rx.wall > 0 then Some(rx.wall - tx.wall) else None
    ensures Interval(MjpegToSink, tx, rx, shown) == Span(tx.mjpeg > 0, tx.mjpeg, rx.sink)
    ensures Interval(V4l2ToSink, tx, rx, shown) == Span(tx.v4l2 > 0, tx.v4l2, rx.sink)
    ensures Interval(OnFrameToSink, tx, rx, shown) == Span(tx.onFrame > 0, tx.onFrame, rx.sink)
    ensures Interval(MjpegToArgb, tx, rx, shown) == Span(tx.mjpeg > 0, tx.mjpeg, rx.argb)
    ensures Interval(MjpegToCallback, tx, rx, shown) == Span(tx.mjpeg > 0, tx.mjpeg, rx.callback)
    ensures Interval(SinkToArgb, tx, rx, shown) == Span(true, rx.sink, rx.argb)
    ensures Interval(ArgbToCallback, tx, rx, shown) == Span(true, rx.argb, rx.callback)
    ensures shown.Some? ==>
              && Interval(V4l2ToPresent, tx, rx, shown) == Span(tx.v4l2 > 0, tx.v4l2, shown.value)
              && Interval(MjpegToPresent, tx, rx, shown) == Span(tx.mjpeg > 0, tx.mjpeg, shown.value)
              && Interval(CallbackToPresent, tx, rx, shown) == Span(rx.callback > 0, rx.callback, shown.value)
    ensures shown.None? ==>
              forall m :: m in {V4l2ToPresent, MjpegToPresent, CallbackToPresent} ==>
                Interval(m, tx, rx, shown) == None
  {
    hide Interval, Span;
    ToSinkIntervals(tx, rx, shown);
    StageIntervals(tx, rx, shown);
    PresentIntervals(tx, rx, shown);
  }

  /** Where the stages of one frame are all measured, the long intervals are too, and are their sums. */
  lemma StagesAddUp(rec: Record, tx: Tx, rx: Rx, shown: Option<int>)
    requires Measures(rec, tx, rx, shown)
    requires MjpegToSink in rec && SinkToArgb in rec
    ensures MjpegToArgb in rec && rec[MjpegToArgb] == rec[MjpegToSink] + rec[SinkToArgb]
    ensures ArgbToCallback in rec ==>
              MjpegToCallback in rec && rec[MjpegToCallback] == rec[MjpegToArgb] + rec[ArgbToCallback]
    ensures ArgbToCallback in rec && CallbackToPresent in rec ==>
              MjpegToPresent in rec && rec[MjpegToPresent] == rec[MjpegToCallback] + rec[CallbackToPresent]
  {
    assert Lookup(rec, MjpegToSink) == Interval(MjpegToSink, tx, rx, shown);
    assert Lookup(rec, SinkToArgb) == Interval(SinkToArgb, tx, rx, shown);
    assert Lookup(rec, MjpegToArgb) == Interval(MjpegToArgb, tx, rx, shown);
    if ArgbToCallback in rec {
      assert Lookup(rec, ArgbToCallback) == Interval(ArgbToCallback, tx, rx, shown);
      assert Lookup(rec, MjpegToCallback) == Interval(MjpegToCallback, tx, rx, shown);
      if CallbackToPresent in rec {
        assert Lookup(rec, CallbackToPresent) == Interval(CallbackToPresent, tx, rx, shown);
        assert Lookup(rec, MjpegToPresent) == Interval(MjpegToPresent, tx, rx, shown);
      }
    }
  }

  // ---- pairing ----

  function Metrics(): seq<Metric> {
    [WallMjpegToSink, V4l2ToSink, V4l2ToPresent, MjpegToSink, MjpegToPresent, OnFrameToSink,
     MjpegToArgb, MjpegToCallback, CallbackToPresent, SinkToArgb, ArgbToCallback]
  }

  lemma AllMetrics()
    ensures Distinct(Metrics())
    ensures forall m: Metric :: m in Metrics()
  {
    forall m: Metric ensures m in Metrics() {
      assert exists i :: 0 <= i < |Metrics()| && Metrics()[i] == m by {
        match m
        case WallMjpegToSink => assert Metrics()[0] == m;
        case V4l2ToSink => assert Metrics()[1] == m;
        case V4l2ToPresent => assert Metrics()[2] == m;
        case MjpegToSink => assert Metrics()[3] == m;
        case MjpegToPresent => assert Metrics()[4] == m;
        case OnFrameToSink => assert Metrics()[5] == m;
        case MjpegToArgb => assert Metrics()[6] == m;
        case MjpegToCallback => assert Metrics()[7] == m;
        case CallbackToPresent => assert Metrics()[8] == m;
        case SinkToArgb => assert Metrics()[9] == m;
        case ArgbToCallback => assert Metrics()[10] == m;
      }
    }
  }

  function Value(rec: Record, m: Metric): seq<int> {
    if m in rec then [rec[m]] else []
  }

  type Report = map<Metric, Option<Stats>>

  class Buckets {
    var lists: map<Metric, seq<int>>

    ghost predicate Valid()
      reads this
    {
      forall m :: m in lists
    }

    constructor ()
      ensures Valid() && forall m :: lists[m] == []
    {
      lists := map m | m in Metrics() :: [];
      new;
      AllMetrics();
    }

    method Add(rec: Record)
      requires Valid()
      modifies this
      ensures Valid() && forall m :: lists[m] == old(lists[m]) + Value(rec, m)
    {
      var todo := rec.Keys;
      while todo != {}
        invariant Valid() && todo <= rec.Keys
        invariant forall m :: lists[m] == old(lists[m]) + if m in todo then [] else Value(rec, m)
      {
        var k :| k in todo;
        lists := lists[k := lists[k] + [rec[k]]];
        todo := todo - {k};
      }
    }

    method AddPair(k: int, tx: Tx, rx: Rx, shown: Option<int>, ghost s: Sides)
      requires Valid()
      requires k in s.txs && k in s.rxs && s.txs[k] == tx && s.rxs[k] == rx
      requires shown == if k in s.shown then Some(s.shown[k]) else None
      modifies this
      ensures Valid() && forall m :: lists[m] == old(lists[m]) + Contribution(k, s, m)
    {
      var rec := CollectDeltas(tx, rx);
      rec := AddPresentation(rec, tx, rx, shown);
      forall m ensures Value(rec, m) == Contribution(k, s, m) {
        hide Interval;
        assert Lookup(rec, m) == Interval(m, tx, rx, shown);
      }
      Add(rec);
    }

    /** Prints every bucket; each is left sorted. */
    method Flush(ghost ks: seq<int>, ghost s: Sides) returns (report: Report)
      requires Valid() && forall m :: lists[m] == Collected(ks, s, m)
      modifies this
      ensures Valid() && forall m :: lists[m] == Sorted(old(lists[m]))
      ensures Reported(report, ks, s)
    {
      report := map[];
      AllMetrics();
      ghost var was := lists;
      hide Metrics, Sorted, Reports, Collected;
      for n := 0 to |Metrics()|
        invariant Valid() && report.Keys == set m | m in Metrics()[..n]
        invariant forall m :: lists[m] == if m in report then Sorted(was[m]) else was[m]
        invariant forall m :: m in report ==> Reports(report[m], was[m])
      {
        var m := Metrics()[n];
        assert Metrics()[..n + 1] == Metrics()[..n] + [m] && m !in Metrics()[..n];
        var sorted, r := Print(lists[m]);
        lists := lists[m := sorted];
        report := report[m := r];
      }
      assert Metrics()[..|Metrics()|] == Metrics();
      forall m ensures m in report && Reports(report[m], Collected(ks, s, m)) {
        assert m in Metrics() && was[m] == Collected(ks, s, m);
      }
    }
  }

  /** The matched dictionaries of the two logs. */
  datatype Sides = Sides(txs: map<int, Tx>, rxs: map<int, Rx>, shown: map<int, int>) {
    ghost function Common(): set<int> {
      txs.Keys * rxs.Keys
    }
  }

  /** What the pair with key k adds to the bucket of m. */
  function Contribution(k: int, s: Sides, m: Metric): seq<int> {
    if k in s.txs && k in s.rxs then
      match Interval(m, s.txs[k], s.rxs[k], if k in s.shown then Some(s.shown[k]) else None)
      case Some(d) => [d]
      case None => []
    else []
  }

  function Collected(ks: seq<int>, s: Sides, m: Metric): seq<int> {
    if ks == [] then []
    else Collected(ks[..|ks| - 1], s, m) + Contribution(ks[|ks| - 1], s, m)
  }

  ghost function Measured(ks: seq<int>, s: Sides, m: Metric): set<int> {
    set k | k in ks && Contribution(k, s, m) != []
  }

  lemma MeasuredStep(ks: seq<int>, s: Sides, m: Metric)
    requires ks != [] && Distinct(ks)
    ensures var n := |ks| - 1;
            var t := Measured(ks[..n], s, m);
            ks[n] !in t && Measured(ks, s, m) == if Contribution(ks[n], s, m) != [] then t + {ks[n]} else t
  {
    hide Contribution;
    var n := |ks| - 1;
    assert ks == ks[..n] + [ks[n]];
  }

  /** A bucket has one value for each pair that measures its metric. */
  lemma {:induction false} BucketSize(ks: seq<int>, s: Sides, m: Metric)
    requires Distinct(ks)
    ensures |Collected(ks, s, m)| == |Measured(ks, s, m)|
  {
    if ks == [] {
      assert Measured(ks, s, m) == {};
    } else {
      BucketSize(ks[..|ks| - 1], s, m);
      MeasuredStep(ks, s, m);
      hide Measured;
    }
  }

  /** So never more values than there are pairs. */
  lemma BucketFits(ks: seq<int>, s: Sides, m: Metric)
    requires Distinct(ks)
    ensures |Collected(ks, s, m)| <= |s.Common()|
  {
    BucketSize(ks, s, m);
    assert Measured(ks, s, m) <= s.Common();
    hide Contribution, Collected, Measured;
    Smaller(Measured(ks, s, m), s.Common());
  }

  lemma {:induction false} BucketNonNegative(ks: seq<int>, s: Sides, m: Metric)
    requires m != WallMjpegToSink
    ensures forall d :: d in Collected(ks, s, m) ==> d >= 0
  {
    if ks != [] {
      BucketNonNegative(ks[..|ks| - 1], s, m);
    }
  }

  ghost function Matched(ks: seq<int>, s: Sides): set<int> {
    set k | k in ks && k in s.txs
  }

  lemma PairStep(ks: seq<int>, n: nat, s: Sides)
    requires n < |ks| && Distinct(ks)
    ensures forall m :: Collected(ks[..n + 1], s, m) == Collected(ks[..n], s, m) + Contribution(ks[n], s, m)
    ensures ks[n] !in s.txs ==> forall m :: Contribution(ks[n], s, m) == []
    ensures |Matched(ks[..n + 1], s)| == |Matched(ks[..n], s)| + if ks[n] in s.txs then 1 else 0
  {
    MatchedStep(ks, n, s);
    hide Matched;
    assert ks[..n + 1][..n] == ks[..n];
  }

  lemma MatchedStep(ks: seq<int>, n: nat, s: Sides)
    requires n < |ks| && Distinct(ks)
    ensures |Matched(ks[..n + 1], s)| == |Matched(ks[..n], s)| + if ks[n] in s.txs then 1 else 0
  {
    assert ks[..n + 1] == ks[..n] + [ks[n]];
    assert ks[n] !in ks[..n];
    assert Matched(ks[..n + 1], s) == Matched(ks[..n], s) + if ks[n] in s.txs then {ks[n]} else {};
  }

  method PairUp(txs: Dict<int, Tx>, rxs: Dict<int, Rx>, shown: Dict<int, int>) returns (b: Buckets, pairs: nat)
    requires rxs.Valid()
    ensures var s := Sides(txs.at, rxs.at, shown.at);
            && fresh(b) && b.Valid() && pairs == |s.Common()|
            && forall m :: b.lists[m] == Collected(rxs.keys, s, m)
  {
    b := new Buckets();
    pairs := 0;
    ghost var s := Sides(txs.at, rxs.at, shown.at);
    for n := 0 to |rxs.keys|
      invariant fresh(b) && b.Valid() && pairs == |Matched(rxs.keys[..n], s)|
      invariant forall m :: b.lists[m] == Collected(rxs.keys[..n], s, m)
    {
      hide Collected, Contribution, Matched;
      var k := rxs.keys[n];
      assert k in rxs.keys;
      PairStep(rxs.keys, n, s);
      if k in txs.at {
        b.AddPair(k, txs.at[k], rxs.at[k], shown.Get(k), s);
        pairs := pairs + 1;
      }
    }
    assert rxs.keys[..|rxs.keys|] == rxs.keys;
    assert Matched(rxs.keys, s) == s.Common();
  }

  // ---- the report ----

  datatype Outcome =
    | ByTrace(pairs: nat, report: Report)
    | ByRtp(pairs: nat, report: Report)
    | ByOffset(offset: int)
    | NoPairs

  const PAIRS_NEEDED: nat := 8

  ghost function TraceSides(push: seq<PushLine>, pull: seq<PullLine>): Sides {
    Sides(LastDict(TraceSent(push)).at, FirstDict(TraceReceived(pull)).at, FirstDict(Presentations(pull)).at)
  }

  ghost function RtpSides(push: seq<PushLine>, pull: seq<PullLine>): Sides {
    Sides(LastDict(RtpSent(push)).at, FirstDict(RtpReceived(pull)).at, map[])
  }

  /** Each metric is summarised from its bucket. */
  ghost predicate Reported(report: Report, ks: seq<int>, s: Sides) {
    forall m :: m in report && Reports(report[m], Collected(ks, s, m))
  }

  ghost predicate Inferred(o: Outcome, txKeys: seq<int>, rxKeys: seq<int>) {
    var offs := Offsets(Probe(Sorted(txKeys)), Probe(Sorted(rxKeys)));
    (o.ByOffset? && Winner(offs, Some(o.offset))) || (o.NoPairs? && Winner(offs, None))
  }

  method Infer(txKeys: seq<int>, rxKeys: seq<int>) returns (o: Outcome)
    ensures Inferred(o, txKeys, rxKeys)
  {
    var inferred := InferRtpOffset(Sorted(txKeys), Sorted(rxKeys));
    o := if inferred.Some? then ByOffset(inferred.value) else NoPairs;
  }

  /** The pairing by trace if it has enough pairs, else the one by RTP time if it has, else the inferred offset. */
  ghost predicate Chosen(o: Outcome, traceKeys: seq<int>, ts: Sides, rtpKeys: seq<int>, rs: Sides, txKeys: seq<int>) {
    match o
    case ByTrace(pairs, report) =>
      pairs == |ts.Common()| >= PAIRS_NEEDED && Reported(report, traceKeys, ts)
    case ByRtp(pairs, report) =>
      |ts.Common()| < PAIRS_NEEDED <= |rs.Common()| == pairs && Reported(report, rtpKeys, rs)
    case _ =>
      |ts.Common()| < PAIRS_NEEDED && |rs.Common()| < PAIRS_NEEDED && Inferred(o, txKeys, rtpKeys)
  }

  method Choose(traceBuckets: Buckets, tracePairs: nat, rtpBuckets: Buckets, rtpPairs: nat, ghost traceKeys: seq<int>,
                ghost ts: Sides, rtpKeys: seq<int>, ghost rs: Sides, txKeys: seq<int>) returns (o: Outcome)
    requires traceBuckets.Valid() && forall m :: traceBuckets.lists[m] == Collected(traceKeys, ts, m)
    requires rtpBuckets.Valid() && forall m :: rtpBuckets.lists[m] == Collected(rtpKeys, rs, m)
    requires tracePairs == |ts.Common()| && rtpPairs == |rs.Common()|
    modifies traceBuckets, rtpBuckets
    ensures Chosen(o, traceKeys, ts, rtpKeys, rs, txKeys)
  {
    hide Collected, Reported, Inferred, Sides.Common;
    if tracePairs >= PAIRS_NEEDED {
      var report := traceBuckets.Flush(traceKeys, ts);
      o := ByTrace(tracePairs, report);
    } else if rtpPairs >= PAIRS_NEEDED {
      var report := rtpBuckets.Flush(rtpKeys, rs);
      o := ByRtp(rtpPairs, report);
    } else {
      o := Infer(txKeys, rtpKeys);
    }
  }

  ghost predicate Explained(o: Outcome, push: seq<PushLine>, pull: seq<PullLine>) {
    Chosen(o, FirstDict(TraceReceived(pull)).keys, TraceSides(push, pull),
           FirstDict(RtpReceived(pull)).keys, RtpSides(push, pull), LastDict(RtpSent(push)).keys)
  }

  method Analyse(push: seq<PushLine>, pull: seq<PullLine>) returns (o: Outcome, exitCode: int)
    ensures Explained(o, push, pull)
    ensures exitCode == if o == NoPairs then 1 else 0
  {
    var txRtp, txTrace := FoldPush(push);
    var rxRtp, rxTrace, shown := FoldPull(pull);
    Folded(push, pull, txRtp, txTrace, rxRtp, rxTrace, shown);
    hide LastWins, FirstWins, LastDict, FirstDict, Collected, Chosen;
    hide RtpSent, TraceSent, RtpReceived, TraceReceived, Presentations, Sides.Common;
    ghost var ts, rs := TraceSides(push, pull), RtpSides(push, pull);
    var traceBuckets, tracePairs := PairUp(txTrace, rxTrace, shown);
    var rtpBuckets, rtpPairs := PairUp(txRtp, rxRtp, EmptyDict());
    o := Choose(traceBuckets, tracePairs, rtpBuckets, rtpPairs, rxTrace.keys, ts, rxRtp.keys, rs, txRtp.keys);
    exitCode := if o == NoPairs then 1 else 0;
  }

  /** A trace that both logs hold contributes each of its measured intervals, presentations included, to its bucket. */
  lemma TracesMeasured(push: seq<PushLine>, pull: seq<PullLine>, id: int, m: Metric)
    requires var s := TraceSides(push, pull); id in s.Common() && Contribution(id, s, m) != []
    ensures var tx, rx := LastDict(TraceSent(push)).at, FirstDict(TraceReceived(pull)).at;
            var shown := FirstDict(Presentations(pull)).Get(id);
            && Interval(m, tx[id], rx[id], shown).Some?
            && Interval(m, tx[id], rx[id], shown).value in
               Collected(FirstDict(TraceReceived(pull)).keys, TraceSides(push, pull), m)
  {
    hide Interval, LastDict, FirstDict;
    var d := FirstDict(TraceReceived(pull));
    FirstDictFirstWins(TraceReceived(pull));
    assert id in d.keys;
    Contributed(d.keys, TraceSides(push, pull), m, id);
  }

  lemma {:induction false} Contributed(ks: seq<int>, s: Sides, m: Metric, k: int)
    requires k in ks && Contribution(k, s, m) != []
    ensures Contribution(k, s, m)[0] in Collected(ks, s, m)
  {
    hide Contribution;
    var n := |ks| - 1;
    assert ks == ks[..n] + [ks[n]];
    if k != ks[n] {
      Contributed(ks[..n], s, m, k);
    }
  }

  lemma Folded(push: seq<PushLine>, pull: seq<PullLine>, txRtp: Dict<int, Tx>, txTrace: Dict<int, Tx>,
               rxRtp: Dict<int, Rx>, rxTrace: Dict<int, Rx>, shown: Dict<int, int>)
    requires LastWins(txRtp, RtpSent(push)) && LastWins(txTrace, TraceSent(push))
    requires FirstWins(rxRtp, RtpReceived(pull)) && FirstWins(rxTrace, TraceReceived(pull))
    requires FirstWins(shown, Presentations(pull))
    ensures txRtp == LastDict(RtpSent(push)) && txTrace == LastDict(TraceSent(push))
    ensures rxRtp == FirstDict(RtpReceived(pull)) && rxTrace == FirstDict(TraceReceived(pull))
    ensures shown == FirstDict(Presentations(pull))
    ensures rxRtp.Valid() && rxTrace.Valid()
  {
    hide LastDict, FirstDict;
    LastDictLastWins(RtpSent(push));
    LastDictLastWins(TraceSent(push));
    FirstDictFirstWins(RtpReceived(pull));
    FirstDictFirstWins(TraceReceived(pull));
    FirstDictFirstWins(Presentations(pull));
    assert rxRtp.Valid() && rxTrace.Valid();
    hide LastWins, FirstWins;
    LastWinsUnique(txRtp, LastDict(RtpSent(push)), RtpSent(push));
    LastWinsUnique(txTrace, LastDict(TraceSent(push)), TraceSent(push));
    FirstWinsUnique(rxRtp, FirstDict(RtpReceived(pull)), RtpReceived(pull));
    FirstWinsUnique(rxTrace, FirstDict(TraceReceived(pull)), TraceReceived(pull));
    FirstWinsUnique(shown, FirstDict(Presentations(pull)), Presentations(pull));
  }
}
