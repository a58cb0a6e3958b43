/** Inference of a constant RTP timestamp offset between two logs by counting pairs. */
module RtpOffset {
  import opened Options
  import opened Dicts

  const U32: int := 0x1_0000_0000
  const PROBE: nat := 120
  const ENOUGH: nat := 4

  function Probe(keys: seq<int>): seq<int> {
    if |keys| <= PROBE then keys else keys[..PROBE]
  }

  function Row(t: int, rx: seq<int>): seq<int> {
    seq(|rx|, j requires 0 <= j < |rx| => (rx[j] - t) % U32)
  }

  /** The offset of every pair, in the order in which the pairs are visited. */
  function Offsets(tx: seq<int>, rx: seq<int>): seq<int> {
    if tx == [] then [] else Offsets(tx[..|tx| - 1], rx) + Row(tx[|tx| - 1], rx)
  }

  function Score(tx: seq<int>, rx: seq<int>, off: int): nat {
    multiset(Offsets(tx, rx))[off]
  }

  ghost predicate Counts(d: Dict<int, nat>, offs: seq<int>) {
    && d.keys == FirstSeen(offs)
    && d.Valid()
    && (forall k :: k in d.at ==> d.at[k] == multiset(offs)[k])
  }

  lemma NothingCounted()
    ensures Counts(EmptyDict(), Offsets([], [])) && forall rx :: Offsets([], rx) == []
  {
  }

  lemma RowStep(t: int, rx: seq<int>, j: nat)
    requires j < |rx|
    ensures |Row(t, rx)| == |rx| && Row(t, rx)[..j + 1] == Row(t, rx)[..j] + [(rx[j] - t) % U32]
  {
  }

  lemma OffsetsStep(tx: seq<int>, rx: seq<int>, i: nat)
    requires i < |tx|
    ensures Offsets(tx[..i + 1], rx) == Offsets(tx[..i], rx) + Row(tx[i], rx)
  {
    assert tx[..i + 1][..i] == tx[..i];
  }

  method CountOffsets(tx: seq<int>, rx: seq<int>) returns (score: Dict<int, nat>)
    ensures Counts(score, Offsets(tx, rx))
  {
    score := EmptyDict();
    NothingCounted();
    hide Counts, Offsets;
    for i := 0 to |tx|
      invariant Counts(score, Offsets(tx[..i], rx))
    {
      ghost var done, row := Offsets(tx[..i], rx), Row(tx[i], rx);
      assert done + row[..0] == done;
      for j := 0 to |rx|
        invariant Counts(score, done + row[..j])
      {
        var k := (rx[j] - tx[i]) % U32;
        RowStep(tx[i], rx, j);
        assert done + row[..j + 1] == done + row[..j] + [k];
        CountOneMore(score, done + row[..j], k);
        score := score.Put(k, if k in score.at then score.at[k] + 1 else 1);
      }
      assert row[..|rx|] == row;
      OffsetsStep(tx, rx, i);
    }
    assert tx[..|tx|] == tx;
  }

  lemma CountOneMore(d: Dict<int, nat>, offs: seq<int>, k: int)
    requires Counts(d, offs)
    ensures Counts(d.Put(k, if k in d.at then d.at[k] + 1 else 1), offs + [k])
  {
    assert (offs + [k])[..|offs|] == offs;
    assert multiset(offs + [k]) == multiset(offs) + multiset{k};
    assert k in d.at <==> k in offs;
    assert k !in offs ==> multiset(offs)[k] == 0;
  }

  /** The most frequent offset, the first counted among equals; None when fewer than four pairs agree. */
  ghost predicate Winner(offs: seq<int>, r: Option<int>) {
    match r
    case None => forall o :: multiset(offs)[o] < ENOUGH
    case Some(off) =>
      && multiset(offs)[off] >= ENOUGH
      && (forall o :: multiset(offs)[o] <= multiset(offs)[off])
      && (forall o :: o != off && multiset(offs)[o] == multiset(offs)[off] ==> Before(offs, off, o))
  }

  method InferRtpOffset(txKeys: seq<int>, rxKeys: seq<int>) returns (r: Option<int>)
    ensures Winner(Offsets(Probe(txKeys), Probe(rxKeys)), r)
  {
    var tx, rx := Probe(txKeys), Probe(rxKeys);
    PairsListed(tx, rx);
    if txKeys == [] || rxKeys == [] {
      return None;
    }
    var score := CountOffsets(tx, rx);
    if score.keys == [] {
      return None;
    }
    hide Offsets;
    var best := MostFrequent(score);
    var off := score.keys[best];
    BestWins(score, Offsets(tx, rx), best);
    r := if score.at[off] >= ENOUGH then Some(off) else None;
  }

  /** max with a key: the first of the largest. */
  method MostFrequent(score: Dict<int, nat>) returns (best: nat)
    requires score.Valid() && score.keys != []
    ensures best < |score.keys|
    ensures forall j :: 0 <= j < |score.keys| ==> score.at[score.keys[j]] <= score.at[score.keys[best]]
    ensures forall j :: 0 <= j < best ==> score.at[score.keys[j]] < score.at[score.keys[best]]
  {
    best := 0;
    for i := 1 to |score.keys|
      invariant best < i
      invariant forall j :: 0 <= j < i ==> score.at[score.keys[j]] <= score.at[score.keys[best]]
      invariant forall j :: 0 <= j < best ==> score.at[score.keys[j]] < score.at[score.keys[best]]
    {
      if score.at[score.keys[i]] > score.at[score.keys[best]] {
        best := i;
      }
    }
  }

  lemma BestWins(d: Dict<int, nat>, offs: seq<int>, best: nat)
    requires Counts(d, offs) && best < |d.keys|
    requires forall j :: 0 <= j < |d.keys| ==> d.at[d.keys[j]] <= d.at[d.keys[best]]
    requires forall j :: 0 <= j < best ==> d.at[d.keys[j]] < d.at[d.keys[best]]
    ensures forall o :: multiset(offs)[o] <= multiset(offs)[d.keys[best]]
    ensures forall o :: o != d.keys[best] && multiset(offs)[o] == multiset(offs)[d.keys[best]] ==>
              Before(offs, d.keys[best], o)
  {
    var off := d.keys[best];
    assert off in d.keys;
    forall o
      ensures multiset(offs)[o] <= multiset(offs)[off]
      ensures o != off && multiset(offs)[o] == multiset(offs)[off] ==> Before(offs, off, o)
    {
      if o in offs {
        assert o in d.keys;
        var j :| 0 <= j < |d.keys| && d.keys[j] == o;
        if best < j {
          FirstSeenOrder(offs, best, j);
        }
      } else {
        assert multiset(offs)[o] == 0;
        assert off in offs && off in multiset(offs);
      }
    }
  }

  /** Which offset wins is determined. */
  lemma WinnerUnique(offs: seq<int>, r: Option<int>, s: Option<int>)
    requires Winner(offs, r) && Winner(offs, s)
    ensures r == s
  {
  }

  lemma {:induction false} PairsListed(tx: seq<int>, rx: seq<int>)
    ensures |Offsets(tx, rx)| == |tx| * |rx|
    ensures forall o :: o in Offsets(tx, rx) ==> 0 <= o < U32
  {
    if tx != [] {
      var n := |tx| - 1;
      PairsListed(tx[..n], rx);
      assert |tx| * |rx| == n * |rx| + |rx| by {
        assert |tx| == n + 1;
        Distribute(n, |rx|);
      }
    }
  }

  lemma Distribute(n: nat, m: nat)
    ensures (n + 1) * m == n * m + m
  {
  }

  function Total<K>(ks: seq<K>, m: multiset<K>): nat {
    if ks == [] then 0 else Total(ks[..|ks| - 1], m) + m[ks[|ks| - 1]]
  }

  lemma {:induction false} TotalIsSize<K>(ks: seq<K>, m: multiset<K>)
    requires Distinct(ks) && forall k :: k in m ==> k in ks
    ensures Total(ks, m) == |m|
  {
    if ks == [] {
      assert m == multiset{};
    } else {
      var n := |ks| - 1;
      var k := ks[n];
      var rest := m[k := 0];
      assert |m| == |rest| + m[k];
      assert ks == ks[..n] + [k];
      TotalIsSize(ks[..n], rest);
      TotalAgrees(ks[..n], m, rest);
    }
  }

  lemma {:induction false} TotalAgrees<K>(ks: seq<K>, m: multiset<K>, l: multiset<K>)
    requires forall k :: k in ks ==> m[k] == l[k]
    ensures Total(ks, m) == Total(ks, l)
  {
    if ks != [] {
      var n := |ks| - 1;
      assert forall k :: k in ks[..n] ==> k in ks;
      assert ks[n] in ks;
      TotalAgrees(ks[..n], m, l);
    }
  }

  /** The scores of the offsets seen add up to the number of pairs. */
  lemma ScoresAddUp(d: Dict<int, nat>, tx: seq<int>, rx: seq<int>)
    requires Counts(d, Offsets(tx, rx))
    ensures Total(d.keys, multiset(Offsets(tx, rx))) == |tx| * |rx|
  {
    PairsListed(tx, rx);
    TotalIsSize(d.keys, multiset(Offsets(tx, rx)));
  }

  /** Dictionary keys that are 32-bit timestamps. */
  ghost predicate Timestamps(ks: seq<int>) {
    Distinct(ks) && forall k :: k in ks ==> 0 <= k < U32
  }

  /** t moved by off on the 32-bit circle. */
  function Turn(t: int, off: int): int {
    (t + off) % U32
  }

  ghost function Partnered(tx: seq<int>, rx: seq<int>, off: int): set<int> {
    set t | t in tx && Turn(t, off) in rx
  }

  /** How far o lies beyond k on the circle. */
  function Gap(o: int, k: int): (e: int)
    ensures 0 <= e < U32
  {
    (o - k) % U32
  }

  lemma TurnInjective(a: int, b: int, off: int)
    requires 0 <= a < U32 && 0 <= b < U32
    ensures Turn(a, off) == Turn(b, off) ==> a == b
  {
  }

  lemma TurnModulo(t: int, k: int)
    ensures Turn(t, k % U32) == Turn(t, k)
  {
  }

  lemma TurnBack(t: int, o: int, u: int, k: int)
    requires 0 <= u < U32 && Turn(t, o) == Turn(u, k)
    ensures Turn(t, Gap(o, k)) == u
  {
  }

  /** An arc shorter than half the circle is not mapped into itself by a turn. */
  lemma ShortArc(lo: int, hi: int, e: int)
    requires 0 <= lo <= hi < U32 && hi - lo < U32 / 2 && 0 <= e < U32
    requires lo <= Turn(lo, e) <= hi && lo <= Turn(hi, e) <= hi
    ensures e == 0
  {
  }

  lemma Partner(t: int, x: int, off: int)
    requires 0 <= x < U32 && 0 <= off < U32
    ensures (x - t) % U32 == off <==> x == Turn(t, off)
  {
  }

  lemma RowHits(t: int, rx: seq<int>, off: int)
    requires Timestamps(rx) && 0 <= off < U32
    ensures multiset(Row(t, rx))[off] == if Turn(t, off) in rx then 1 else 0
  {
    hide Turn;
    var row := Row(t, rx);
    forall j | 0 <= j < |rx| ensures row[j] == off <==> rx[j] == Turn(t, off) {
      assert rx[j] in rx;
      Partner(t, rx[j], off);
    }
    hide Row;
    if Turn(t, off) in rx {
      var j :| 0 <= j < |rx| && rx[j] == Turn(t, off);
      FoundOnce(row, j);
    } else {
      assert off !in row;
    }
  }

  lemma FoundOnce(s: seq<int>, j: nat)
    requires j < |s| && forall i :: 0 <= i < |s| && i != j ==> s[i] != s[j]
    ensures multiset(s)[s[j]] == 1
  {
    var x := s[j];
    assert s == s[..j] + [x] + s[j + 1..];
    assert x !in s[..j] && x !in s[j + 1..];
  }

  /** The score of an offset is the number of send keys whose shifted key was received. */
  lemma {:induction false} ScoreCountsPartners(tx: seq<int>, rx: seq<int>, off: int)
    requires Timestamps(tx) && Timestamps(rx) && 0 <= off < U32
    ensures Score(tx, rx, off) == |Partnered(tx, rx, off)|
  {
    if tx == [] {
      assert Partnered(tx, rx, off) == {};
    } else {
      var n := |tx| - 1;
      var t := tx[n];
      assert tx == tx[..n] + [t];
      assert t !in tx[..n];
      assert forall k :: k in tx[..n] ==> k in tx;
      hide Turn, Row;
      ScoreCountsPartners(tx[..n], rx, off);
      RowHits(t, rx, off);
      var m := Partnered(tx[..n], rx, off);
      assert Partnered(tx, rx, off) == if Turn(t, off) in rx then m + {t} else m;
    }
  }

  lemma {:induction false} DistinctSize<K>(ks: seq<K>)
    requires Distinct(ks)
    ensures |set k | k in ks| == |ks|
  {
    if ks != [] {
      var n := |ks| - 1;
      DistinctSize(ks[..n]);
      assert ks == ks[..n] + [ks[n]];
      assert (set k | k in ks) == (set k | k in ks[..n]) + {ks[n]};
    }
  }

  lemma {:induction false} ShiftFits(m: set<int>, r: set<int>, off: int)
    requires forall t :: t in m ==> 0 <= t < U32 && Turn(t, off) in r
    ensures |m| <= |r|
  {
    if m != {} {
      var t := Pick(m);
      forall u | u in m - {t} ensures Turn(u, off) in r - {Turn(t, off)} {
        TurnInjective(t, u, off);
      }
      ShiftFits(m - {t}, r - {Turn(t, off)}, off);
    }
  }

  lemma Pick<K>(m: set<K>) returns (k: K)
    requires m != {}
    ensures k in m
  {
    k :| k in m;
  }

  /** No key is counted twice for one offset. */
  lemma ScoreBound(tx: seq<int>, rx: seq<int>, off: int)
    requires Timestamps(tx) && Timestamps(rx)
    ensures Score(tx, rx, off) <= |tx| && Score(tx, rx, off) <= |rx|
  {
    PairsListed(tx, rx);
    if 0 <= off < U32 {
      ScoreCountsPartners(tx, rx, off);
      var m := Partnered(tx, rx, off);
      DistinctSize(tx);
      DistinctSize(rx);
      var sent, received := set t | t in tx, set x | x in rx;
      assert m <= sent;
      Smaller(m, sent);
      ShiftFits(m, received, off);
    } else {
      assert off !in Offsets(tx, rx);
    }
  }

  lemma Smaller<K>(a: set<K>, b: set<K>)
    requires a <= b
    ensures |a| <= |b| && (|a| == |b| ==> a == b)
  {
    assert |b| == |a| + |b - a|;
  }

  /** What was received is exactly what was sent, shifted by k on the 32-bit circle. */
  ghost predicate Shifted(tx: seq<int>, rx: seq<int>, k: int) {
    && (forall t {:trigger Turn(t, k)} :: t in tx ==> Turn(t, k) in rx)
    && (forall x {:trigger Turn(x, -k)} :: x in rx ==> Turn(x, -k) in tx)
  }

  lemma Forth(tx: seq<int>, rx: seq<int>, k: int, t: int)
    requires Shifted(tx, rx, k) && t in tx
    ensures Turn(t, k) in rx
  {
  }

  lemma Back(tx: seq<int>, rx: seq<int>, k: int, x: int) returns (t: int)
    requires Shifted(tx, rx, k) && x in rx && 0 <= x < U32
    ensures t in tx && x == Turn(t, k)
  {
    t := Turn(x, -k);
  }

  /** Of a shifted probe the inference always names some offset that explains every key. */
  lemma ExplainsEveryKey(tx: seq<int>, rx: seq<int>, k: int, r: Option<int>)
    requires Timestamps(tx) && Timestamps(rx) && |tx| >= ENOUGH && Shifted(tx, rx, k)
    requires Winner(Offsets(tx, rx), r)
    ensures r.Some? && 0 <= r.value < U32 && forall t :: t in tx ==> Turn(t, r.value) in rx
    ensures Score(tx, rx, r.value) == Score(tx, rx, k % U32) == |tx|
  {
    hide Turn, Offsets, Shifted;
    var right := k % U32;
    var sent := set t | t in tx;
    DistinctSize(tx);
    assert Partnered(tx, rx, right) == sent by {
      forall t | t in tx ensures Turn(t, right) in rx {
        TurnModulo(t, k);
        Forth(tx, rx, k, t);
      }
    }
    ScoreCountsPartners(tx, rx, right);
    assert multiset(Offsets(tx, rx))[right] == |tx|;
    PairsListed(tx, rx);
    var off := r.value;
    assert off in Offsets(tx, rx);
    ScoreCountsPartners(tx, rx, off);
    ScoreBound(tx, rx, off);
    Smaller(Partnered(tx, rx, off), sent);
    forall t | t in tx ensures Turn(t, off) in rx {
      assert t in sent;
    }
  }

  lemma Stays(tx: seq<int>, rx: seq<int>, k: int, off: int, t: int)
    requires Timestamps(tx) && Timestamps(rx) && Shifted(tx, rx, k) && Turn(t, off) in rx
    ensures Turn(t, Gap(off, k)) in tx
  {
    hide Turn, Shifted;
    var u := Back(tx, rx, k, Turn(t, off));
    TurnBack(t, off, u, k);
  }

  /** Turning by e maps the keys into themselves. */
  ghost predicate Symmetric(ks: seq<int>, e: int) {
    forall k {:trigger Turn(k, e)} :: k in ks ==> Turn(k, e) in ks
  }

  ghost predicate Asymmetric(ks: seq<int>) {
    forall e :: 0 < e < U32 ==> !Symmetric(ks, e)
  }

  /** Keys that no turn maps into themselves: the offset found is the true one. */
  lemma AsymmetricRecovers(tx: seq<int>, rx: seq<int>, k: int, r: Option<int>)
    requires Timestamps(tx) && Timestamps(rx) && |tx| >= ENOUGH && Shifted(tx, rx, k) && Asymmetric(tx)
    requires Winner(Offsets(tx, rx), r)
    ensures r == Some(k % U32)
  {
    hide Turn, Gap, Offsets, Shifted, Winner, Timestamps;
    ExplainsEveryKey(tx, rx, k, r);
    var e := Gap(r.value, k);
    forall t | t in tx ensures Turn(t, e) in tx {
      Stays(tx, rx, k, r.value, t);
    }
    assert Symmetric(tx, e);
    SameOffset(r.value, k);
  }

  /** Keys that span less than half the circle are not mapped into themselves by any turn. */
  lemma ShortSpanAsymmetric(tx: seq<int>)
    requires Timestamps(tx) && tx != []
    requires forall a, b :: a in tx && b in tx ==> a - b < U32 / 2
    ensures Asymmetric(tx)
  {
    hide Turn, Timestamps;
    var lo, hi := Ends(tx);
    InRange(tx, lo);
    InRange(tx, hi);
    forall e | 0 < e < U32 ensures !Symmetric(tx, e) {
      if Symmetric(tx, e) {
        assert Turn(lo, e) in tx && Turn(hi, e) in tx;
        ShortArc(lo, hi, e);
      }
    }
  }

  /** When the keys span less than half the circle, the offset found is the true one. */
  lemma ExactRecovery(tx: seq<int>, rx: seq<int>, k: int, r: Option<int>)
    requires Timestamps(tx) && Timestamps(rx) && |tx| >= ENOUGH && Shifted(tx, rx, k)
    requires forall a, b :: a in tx && b in tx ==> a - b < U32 / 2
    requires Winner(Offsets(tx, rx), r)
    ensures r == Some(k % U32)
  {
    hide Turn, Gap, Offsets, Shifted, Winner, Timestamps;
    ShortSpanAsymmetric(tx);
    AsymmetricRecovers(tx, rx, k, r);
  }

  /** A turn that maps the keys into themselves maps them onto themselves, so it cannot be told from no shift at all. */
  lemma SymmetryMisleads(ks: seq<int>, e: int)
    requires Timestamps(ks) && |ks| >= ENOUGH && 0 < e < U32 && Symmetric(ks, e)
    ensures Shifted(ks, ks, e)
    ensures forall r :: Winner(Offsets(ks, ks), r) ==> r == Some(0)
  {
    hide Turn, Offsets, Winner, Symmetric;
    forall x | x in ks ensures Turn(x, -e) in ks {
      var t := Onto(ks, e, x);
      TurnUndone(t, e);
    }
    assert Shifted(ks, ks, e) by { assert forall t :: t in ks ==> Turn(t, e) in ks by { Apart(ks, e); } }
    forall r | Winner(Offsets(ks, ks), r) ensures r == Some(0) {
      EqualProbes(ks, r);
    }
  }

  lemma Apart(ks: seq<int>, e: int)
    requires Symmetric(ks, e)
    ensures forall t {:trigger Turn(t, e)} :: t in ks ==> Turn(t, e) in ks
  {
  }

  /** All of s turned by e. */
  ghost function Turned(s: set<int>, e: int): set<int> {
    set k | k in s :: Turn(k, e)
  }

  lemma TurnedFits(s: set<int>, e: int)
    requires forall k :: k in s ==> 0 <= k < U32
    ensures |s| <= |Turned(s, e)|
  {
    ShiftFits(s, Turned(s, e), e);
  }

  lemma TurnedInside(ks: seq<int>, e: int)
    requires Symmetric(ks, e)
    ensures Turned((set k | k in ks), e) <= (set k | k in ks)
  {
    hide Turn;
    forall x | x in Turned((set k | k in ks), e) ensures x in ks {
      var t :| t in ks && Turn(t, e) == x;
    }
  }

  lemma Onto(ks: seq<int>, e: int, x: int) returns (t: int)
    requires Timestamps(ks) && Symmetric(ks, e) && x in ks
    ensures t in ks && Turn(t, e) == x && 0 <= t < U32
  {
    hide Turn, Turned;
    var s := set k | k in ks;
    TurnedInside(ks, e);
    TurnedFits(s, e);
    Smaller(Turned(s, e), s);
    t := Preimage(s, e, x);
  }

  lemma Preimage(s: set<int>, e: int, x: int) returns (t: int)
    requires x in Turned(s, e)
    ensures t in s && Turn(t, e) == x
  {
    hide Turn;
    t :| t in s && Turn(t, e) == x;
  }

  lemma TurnUndone(t: int, e: int)
    requires 0 <= t < U32
    ensures Turn(Turn(t, e), -e) == t
  {
  }

  ghost predicate AlwaysRecovered(tx: seq<int>) {
    forall rx, k: int, r :: Timestamps(rx) && Shifted(tx, rx, k) && Winner(Offsets(tx, rx), r) ==> r == Some(k % U32)
  }

  /** Every shift of the send keys is recovered exactly when no turn maps them into themselves. */
  lemma RecoveredIffAsymmetric(tx: seq<int>)
    requires Timestamps(tx) && |tx| >= ENOUGH
    ensures AlwaysRecovered(tx) <==> Asymmetric(tx)
  {
    hide Turn, Offsets, Shifted, Winner, Timestamps, Symmetric;
    if Asymmetric(tx) {
      forall rx, k: int, r | Timestamps(rx) && Shifted(tx, rx, k) && Winner(Offsets(tx, rx), r)
        ensures r == Some(k % U32)
      {
        AsymmetricRecovers(tx, rx, k, r);
      }
    } else {
      var e :| 0 < e < U32 && Symmetric(tx, e);
      SymmetryMisleads(tx, e);
      var r := InferredFrom(tx, tx);
    }
  }

  /** Whatever the probes, some result is the inferred one. */
  lemma InferredFrom(tx: seq<int>, rx: seq<int>) returns (r: Option<int>)
    ensures Winner(Offsets(tx, rx), r)
  {
    var offs := Offsets(tx, rx);
    if o :| multiset(offs)[o] >= ENOUGH {
      assert o in offs;
      var ks := FirstSeen(offs);
      var d := Dict(ks, map k | k in ks :: multiset(offs)[k] as nat);
      assert Counts(d, offs);
      var best := FirstMaximum(ks, multiset(offs));
      BestWins(d, offs, best);
      r := Some(d.keys[best]);
    } else {
      r := None;
    }
  }

  lemma {:induction false} FirstMaximum(ks: seq<int>, m: multiset<int>) returns (best: nat)
    requires ks != []
    ensures best < |ks|
    ensures forall j :: 0 <= j < |ks| ==> m[ks[j]] <= m[ks[best]]
    ensures forall j :: 0 <= j < best ==> m[ks[j]] < m[ks[best]]
  {
    var n := |ks| - 1;
    if n == 0 {
      best := 0;
    } else {
      best := FirstMaximum(ks[..n], m);
      assert forall j :: 0 <= j < n ==> ks[..n][j] == ks[j];
      if m[ks[n]] > m[ks[best]] {
        best := n;
      }
    }
  }

  lemma InRange(ks: seq<int>, k: int)
    requires Timestamps(ks) && k in ks
    ensures 0 <= k < U32
  {
  }

  lemma SameOffset(o: int, k: int)
    requires 0 <= o < U32 && Gap(o, k) == 0
    ensures o == k % U32
  {
  }

  lemma {:induction false} Ends(ks: seq<int>) returns (lo: int, hi: int)
    requires ks != []
    ensures lo in ks && hi in ks && forall k :: k in ks ==> lo <= k <= hi
  {
    var n := |ks| - 1;
    assert ks == ks[..n] + [ks[n]];
    if n == 0 {
      lo, hi := ks[0], ks[0];
    } else {
      lo, hi := Ends(ks[..n]);
      lo, hi := if ks[n] < lo then ks[n] else lo, if ks[n] > hi then ks[n] else hi;
    }
  }

  lemma {:induction false} FirstPair(tx: seq<int>, rx: seq<int>)
    requires tx != [] && rx != []
    ensures |Offsets(tx, rx)| > 0 && Offsets(tx, rx)[0] == (rx[0] - tx[0]) % U32
  {
    if |tx| > 1 {
      FirstPair(tx[..|tx| - 1], rx);
    } else {
      assert Offsets(tx[..0], rx) == [];
    }
  }

  /** Equal probes are always explained by the offset 0, which is counted first. */
  lemma EqualProbes(ks: seq<int>, r: Option<int>)
    requires Timestamps(ks) && |ks| >= ENOUGH && Winner(Offsets(ks, ks), r)
    ensures r == Some(0)
  {
    hide Turn, Gap, Offsets, Shifted, Timestamps, Partnered;
    FirstPair(ks, ks);
    NotTurned(ks);
    ExplainsEveryKey(ks, ks, 0, r);
  }

  lemma NotTurned(ks: seq<int>)
    requires Timestamps(ks)
    ensures Shifted(ks, ks, 0)
  {
    hide Turn;
    forall t | t in ks ensures Turn(t, 0) == t {
      Untouched(t);
    }
    assert -0 == 0;
  }

  lemma Untouched(t: int)
    requires 0 <= t < U32
    ensures Turn(t, 0) == t
  {
  }

  /** Without the bound on the span the answer can be wrong: half a turn of these keys is reported as none. */
  lemma HalfTurnIsLost(r: Option<int>)
    requires Winner(Offsets(Opposite(), Opposite()), r)
    ensures Timestamps(Opposite()) && Shifted(Opposite(), Opposite(), U32 / 2)
    ensures r == Some(0) && r != Some(U32 / 2 % U32)
  {
    HalfTurn();
    hide Shifted, Turn, Winner, Offsets;
    EqualProbes(Opposite(), r);
  }

  function Opposite(): seq<int> {
    [0, 1, U32 / 2, U32 / 2 + 1]
  }

  lemma HalfTurn()
    ensures Timestamps(Opposite()) && Shifted(Opposite(), Opposite(), U32 / 2)
  {
    var ks, h := Opposite(), U32 / 2;
    assert Turn(ks[0], h) == ks[2] && Turn(ks[1], h) == ks[3] && Turn(ks[2], h) == ks[0] && Turn(ks[3], h) == ks[1];
    assert Turn(ks[0], -h) == ks[2] && Turn(ks[1], -h) == ks[3] && Turn(ks[2], -h) == ks[0] && Turn(ks[3], -h) == ks[1];
    hide Turn;
  }
}
