/**
 Offset inference on the logs themselves: main sorts the keys of both and probes the first 120. What
 RtpOffset proves of probes is carried over to logs whose probes still correspond, and fails for others.
 */
module OffsetRecovery {
  import opened Options
  import opened Dicts
  import opened RtpOffset
  import opened LatencyStats

  /** The offsets main counts for the keys of the two logs. */
  function LogOffsets(tx: seq<int>, rx: seq<int>): seq<int> {
    Offsets(Probe(Sorted(tx)), Probe(Sorted(rx)))
  }

  lemma LastIsLargest(s: seq<int>, x: int)
    requires Ascending(s) && x in multiset(s)
    ensures s != [] && x <= s[|s| - 1]
  {
    assert x in s;
    var i :| 0 <= i < |s| && s[i] == x;
  }

  lemma WithoutLast(s: seq<int>)
    requires s != []
    ensures multiset(s[..|s| - 1]) == multiset(s) - multiset{s[|s| - 1]}
    ensures s[|s| - 1] in multiset(s)
  {
    var n := |s| - 1;
    assert s == s[..n] + [s[n]];
  }

  lemma PrefixAscending(s: seq<int>, n: nat)
    requires Ascending(s) && n <= |s|
    ensures Ascending(s[..n])
  {
  }

  lemma SameSize(s: seq<int>, t: seq<int>)
    requires multiset(s) == multiset(t)
    ensures |s| == |t|
  {
    assert |multiset(s)| == |multiset(t)|;
  }

  lemma {:induction false} AscendingUnique(s: seq<int>, t: seq<int>)
    requires Ascending(s) && Ascending(t) && multiset(s) == multiset(t)
    ensures s == t
  {
    hide Ascending;
    SameSize(s, t);
    if s != [] {
      var n := |s| - 1;
      WithoutLast(s);
      WithoutLast(t);
      LastIsLargest(s, t[n]);
      LastIsLargest(t, s[n]);
      PrefixAscending(s, n);
      PrefixAscending(t, n);
      SameRest(s, t);
      AscendingUnique(s[..n], t[..n]);
      SameWhole(s, t);
    }
  }

  lemma SameRest(s: seq<int>, t: seq<int>)
    requires multiset(s) == multiset(t) && |s| == |t| > 0 && s[|s| - 1] == t[|t| - 1]
    ensures multiset(s[..|s| - 1]) == multiset(t[..|t| - 1])
  {
    WithoutLast(s);
    WithoutLast(t);
  }

  lemma SameWhole(s: seq<int>, t: seq<int>)
    requires |s| == |t| > 0 && s[|s| - 1] == t[|t| - 1] && s[..|s| - 1] == t[..|t| - 1]
    ensures s == t
  {
    var n := |s| - 1;
    assert s == s[..n] + [s[n]] && t == t[..n] + [t[n]];
  }

  lemma DistinctOnce(s: seq<int>, x: int)
    requires Distinct(s)
    ensures multiset(s)[x] == if x in s then 1 else 0
  {
    if x in s {
      var j :| 0 <= j < |s| && s[j] == x;
      FoundOnce(s, j);
    }
  }

  /** Lists without repetitions and with the same members are permutations of each other. */
  lemma SameSet(s: seq<int>, t: seq<int>)
    requires Distinct(s) && Distinct(t) && forall x :: x in s <==> x in t
    ensures multiset(s) == multiset(t)
  {
    forall x ensures multiset(s)[x] == multiset(t)[x] {
      DistinctOnce(s, x);
      DistinctOnce(t, x);
    }
  }

  lemma {:induction false} OnceDistinct(s: seq<int>)
    requires forall x :: multiset(s)[x] <= 1
    ensures Distinct(s)
  {
    forall i, j | 0 <= i < j < |s| ensures s[i] != s[j] {
      assert s == s[..j] + s[j..];
      assert s[i] in multiset(s[..j]) && s[j] in multiset(s[j..]);
      assert multiset(s)[s[j]] == multiset(s[..j])[s[j]] + multiset(s[j..])[s[j]];
    }
  }

  lemma SortedKeys(ks: seq<int>)
    requires Timestamps(ks)
    ensures Timestamps(Sorted(ks)) && |Sorted(ks)| == |ks| && forall x :: x in Sorted(ks) <==> x in ks
  {
    hide Sorted;
    SameMembers(Sorted(ks), ks);
    assert |multiset(Sorted(ks))| == |multiset(ks)|;
    forall x ensures multiset(Sorted(ks))[x] <= 1 {
      DistinctOnce(ks, x);
    }
    OnceDistinct(Sorted(ks));
  }

  /** Being a shift, or asymmetric, is a matter of the members only. */
  lemma MembersDecide(tx: seq<int>, rx: seq<int>, tx': seq<int>, rx': seq<int>, k: int)
    requires (forall x :: x in tx <==> x in tx') && (forall x :: x in rx <==> x in rx')
    ensures Shifted(tx, rx, k) ==> Shifted(tx', rx', k)
    ensures Asymmetric(tx) ==> Asymmetric(tx')
  {
    hide Turn;
    forall e ensures Symmetric(tx', e) ==> Symmetric(tx, e) {
    }
  }

  /** A shift changes no number of keys. */
  lemma SameLength(tx: seq<int>, rx: seq<int>, k: int)
    requires Timestamps(tx) && Timestamps(rx) && Shifted(tx, rx, k)
    ensures |rx| == |tx|
  {
    hide Turn;
    var sent, received := set t | t in tx, set x | x in rx;
    DistinctSize(tx);
    DistinctSize(rx);
    ShiftFits(sent, received, k);
    forall x | x in received ensures 0 <= x < U32 && Turn(x, -k) in sent {
    }
    ShiftFits(received, sent, -k);
  }

  /** Of logs that fit into the probe the offset is recovered, whether or not keys wrap around. */
  lemma ShortLogsRecovered(tx: seq<int>, rx: seq<int>, k: int, r: Option<int>)
    requires Timestamps(tx) && Timestamps(rx) && ENOUGH <= |tx| <= PROBE && Shifted(tx, rx, k) && Asymmetric(tx)
    requires Winner(LogOffsets(tx, rx), r)
    ensures r == Some(k % U32)
  {
    hide Sorted, Offsets, Winner, Turn, Shifted, Asymmetric;
    SortedKeys(tx);
    SortedKeys(rx);
    SameLength(tx, rx, k);
    MembersDecide(tx, rx, Sorted(tx), Sorted(rx), k);
    AsymmetricRecovers(Sorted(tx), Sorted(rx), k, r);
  }

  // ---- Longer logs ----

  /** The shift moves every key by the same number: none wraps around, or all do. */
  ghost predicate MovesAlike(tx: seq<int>, k: int, c: int) {
    forall t :: t in tx ==> Turn(t, k) == t + c
  }

  function Moved(s: seq<int>, c: int): seq<int> {
    seq(|s|, i requires 0 <= i < |s| => s[i] + c)
  }

  /** Then the sorted logs correspond key by key. */
  lemma SortedAlike(tx: seq<int>, rx: seq<int>, k: int, c: int)
    requires Timestamps(tx) && Timestamps(rx) && Ascending(tx) && Ascending(rx)
    requires Shifted(tx, rx, k) && MovesAlike(tx, k, c)
    ensures rx == Moved(tx, c)
  {
    hide Turn;
    var moved := Moved(tx, c);
    forall x ensures x in moved <==> x in rx {
      if x in moved {
        var i :| 0 <= i < |moved| && moved[i] == x;
        assert tx[i] in tx;
        Forth(tx, rx, k, tx[i]);
      }
      if x in rx {
        var t := Back(tx, rx, k, x);
        var i :| 0 <= i < |tx| && tx[i] == t;
        assert moved[i] == x;
      }
    }
    SameSet(moved, rx);
    AscendingUnique(moved, rx);
  }

  lemma PrefixShifted(tx: seq<int>, k: int, c: int, n: nat)
    requires Timestamps(tx) && MovesAlike(tx, k, c) && n <= |tx|
    ensures Shifted(tx[..n], Moved(tx, c)[..n], k)
  {
    hide Turn;
    var p, q := tx[..n], Moved(tx, c)[..n];
    forall t | t in p ensures Turn(t, k) in q {
      var i :| 0 <= i < n && p[i] == t;
      assert tx[i] in tx && q[i] == Turn(t, k);
    }
    forall x | x in q ensures Turn(x, -k) in p {
      var i :| 0 <= i < n && q[i] == x;
      assert tx[i] in tx && x == Turn(tx[i], k) && p[i] == tx[i];
      TurnUndone(tx[i], k);
    }
  }

  lemma PrefixTimestamps(ks: seq<int>, n: nat)
    requires Timestamps(ks) && n <= |ks|
    ensures Timestamps(ks[..n])
  {
    assert forall k :: k in ks[..n] ==> k in ks;
  }

  /** Of logs of any length the offset is recovered when the shift moves all keys alike. */
  lemma LongLogsRecovered(tx: seq<int>, rx: seq<int>, k: int, c: int, r: Option<int>)
    requires Timestamps(tx) && Timestamps(rx) && ENOUGH <= |tx| && Shifted(tx, rx, k) && MovesAlike(tx, k, c)
    requires Asymmetric(Probe(Sorted(tx)))
    requires Winner(LogOffsets(tx, rx), r)
    ensures r == Some(k % U32)
  {
    hide Sorted, Offsets, Winner, Turn, Shifted, Asymmetric, Moved;
    var s, t := Sorted(tx), Sorted(rx);
    SortedKeys(tx);
    SortedKeys(rx);
    MembersDecide(tx, rx, s, t, k);
    SortedAlike(s, t, k, c);
    SameLength(s, t, k);
    var n := |Probe(s)|;
    assert Probe(s) == s[..n] && Probe(t) == t[..n];
    PrefixShifted(s, k, c, n);
    PrefixTimestamps(s, n);
    PrefixTimestamps(t, n);
    AsymmetricRecovers(Probe(s), Probe(t), k, r);
  }

  // ---- A log whose probe no longer corresponds ----

  /** n keys from a, three thousand apart. */
  function Steps(a: int, n: nat): seq<int> {
    seq(n, i => a + 3000 * i)
  }

  const WRAPPING: int := U32 - 300_000

  function Sent(): seq<int> { Steps(0, 200) }
  function Received(): seq<int> { Steps(WRAPPING, 100) + Steps(0, 100) }

  lemma StepsKeys(a: int, n: nat)
    requires 0 <= a && a + 3000 * n <= U32
    ensures Timestamps(Steps(a, n)) && Ascending(Steps(a, n))
    ensures forall x :: x in Steps(a, n) <==> a <= x < a + 3000 * n && (x - a) % 3000 == 0
  {
    forall x | a <= x < a + 3000 * n && (x - a) % 3000 == 0 ensures x in Steps(a, n) {
      assert Steps(a, n)[(x - a) / 3000] == x;
    }
  }

  lemma StepsPrefix(a: int, n: nat, m: nat)
    requires m <= n
    ensures |Steps(a, n)| == n && Steps(a, n)[..m] == Steps(a, m)
  {
  }

  lemma AscendingConcat(s: seq<int>, t: seq<int>)
    requires Ascending(s) && Ascending(t) && forall x, y :: x in s && y in t ==> x <= y
    ensures Ascending(s + t)
  {
    forall i, j | 0 <= i < j < |s + t| ensures (s + t)[i] <= (s + t)[j] {
      if i < |s| <= j {
        assert s[i] in s && t[j - |s|] in t;
      }
    }
  }

  lemma SortedSwapped(s: seq<int>, t: seq<int>)
    requires Ascending(s + t)
    ensures Sorted(t + s) == s + t
  {
    hide Sorted, Ascending;
    assert multiset(t + s) == multiset(s + t);
    AscendingUnique(Sorted(t + s), s + t);
  }

  lemma PrefixOfConcat(s: seq<int>, t: seq<int>, n: nat)
    requires |s| <= n <= |s| + |t|
    ensures (s + t)[..n] == s + t[..n - |s|]
  {
  }

  lemma ProbeOfSent()
    ensures Probe(Sorted(Sent())) == Steps(0, 120)
  {
    StepsKeys(0, 200);
    StepsPrefix(0, 200, 120);
    hide Steps, Sorted, Ascending;
    AscendingUnique(Sorted(Sent()), Sent());
  }

  lemma ReceivedAscending()
    ensures Ascending(Steps(0, 100) + Steps(WRAPPING, 100))
  {
    StepsKeys(0, 100);
    StepsKeys(WRAPPING, 100);
    hide Steps, Ascending;
    AscendingConcat(Steps(0, 100), Steps(WRAPPING, 100));
  }

  lemma ProbeOfReceived()
    ensures Probe(Sorted(Received())) == Steps(0, 100) + Steps(WRAPPING, 20)
  {
    ReceivedAscending();
    StepsPrefix(0, 100, 0);
    StepsPrefix(WRAPPING, 100, 20);
    hide Steps, Sorted, Ascending;
    SortedSwapped(Steps(0, 100), Steps(WRAPPING, 100));
    PrefixOfConcat(Steps(0, 100), Steps(WRAPPING, 100), 120);
  }

  lemma TurnWrapping(t: int)
    ensures 0 <= t < 300_000 ==> Turn(t, WRAPPING) == t + WRAPPING && Turn(t, -WRAPPING) == t + 300_000
    ensures 300_000 <= t < 600_000 ==> Turn(t, WRAPPING) == t - 300_000
    ensures WRAPPING <= t < U32 ==> Turn(t, -WRAPPING) == t - WRAPPING
  {
  }

  lemma ReceivedKeys()
    ensures Timestamps(Received())
    ensures forall x :: x in Received() <==> x in Steps(WRAPPING, 100) || x in Steps(0, 100)
  {
    StepsKeys(0, 100);
    StepsKeys(WRAPPING, 100);
    hide Steps;
    DistinctConcat(Steps(WRAPPING, 100), Steps(0, 100));
  }

  lemma DistinctConcat(s: seq<int>, t: seq<int>)
    requires Distinct(s) && Distinct(t) && forall x :: x in s ==> x !in t
    ensures Distinct(s + t)
  {
    forall i, j | 0 <= i < j < |s + t| ensures (s + t)[i] != (s + t)[j] {
      if i < |s| <= j {
        assert s[i] in s && t[j - |s|] in t;
      }
    }
  }

  lemma LogsShifted()
    ensures Timestamps(Sent()) && Timestamps(Received()) && Shifted(Sent(), Received(), WRAPPING)
  {
    StepsKeys(0, 200);
    StepsKeys(0, 100);
    StepsKeys(WRAPPING, 100);
    ReceivedKeys();
    hide Steps, Turn, Timestamps, Received;
    forall t | t in Sent() ensures Turn(t, WRAPPING) in Received() {
      TurnWrapping(t);
    }
    forall x | x in Received() ensures Turn(x, -WRAPPING) in Sent() {
      TurnWrapping(x);
    }
  }

  /** Under the offset 0 a hundred probed keys find a partner. */
  lemma FalseScore(p: seq<int>, q: seq<int>)
    requires p == Steps(0, 120) && q == Steps(0, 100) + Steps(WRAPPING, 20) && Timestamps(p) && Timestamps(q)
    ensures Score(p, q, 0) >= 100
  {
    StepsKeys(0, 120);
    StepsKeys(0, 100);
    StepsPrefix(0, 100, 0);
    hide Steps, Offsets, Turn, Timestamps;
    ScoreCountsPartners(p, q, 0);
    var low := set x | x in Steps(0, 100);
    DistinctSize(Steps(0, 100)) by { AreDistinct(0, 100); }
    forall x | x in low ensures x in Partnered(p, q, 0) {
      Untouched(x);
    }
    Smaller(low, Partnered(p, q, 0));
  }

  lemma AreDistinct(a: int, n: nat)
    ensures Distinct(Steps(a, n)) && |Steps(a, n)| == n
  {
  }

  /** Under the true offset at most forty do. */
  lemma TrueScore(p: seq<int>, q: seq<int>)
    requires p == Steps(0, 120) && q == Steps(0, 100) + Steps(WRAPPING, 20) && Timestamps(p) && Timestamps(q)
    ensures Score(p, q, WRAPPING) <= 40
  {
    StepsKeys(0, 120);
    StepsKeys(0, 100);
    StepsKeys(WRAPPING, 20);
    StepsKeys(0, 20);
    StepsKeys(300_000, 20);
    AreDistinct(0, 20);
    AreDistinct(300_000, 20);
    hide Steps, Offsets, Turn, Timestamps;
    ScoreCountsPartners(p, q, WRAPPING);
    var few := Steps(0, 20) + Steps(300_000, 20);
    DistinctConcat(Steps(0, 20), Steps(300_000, 20));
    var both := set x | x in few;
    DistinctSize(few);
    forall t | t in Partnered(p, q, WRAPPING) ensures t in both {
      TurnWrapping(t);
    }
    Smaller(Partnered(p, q, WRAPPING), both);
  }

  lemma ProbeKeys()
    ensures Timestamps(Steps(0, 120)) && Timestamps(Steps(0, 100) + Steps(WRAPPING, 20))
  {
    StepsKeys(0, 120);
    StepsKeys(0, 100);
    StepsKeys(WRAPPING, 20);
    hide Steps;
    DistinctConcat(Steps(0, 100), Steps(WRAPPING, 20));
  }

  lemma StepsAsymmetric(n: nat)
    requires 0 < n <= 200
    ensures Asymmetric(Steps(0, n))
  {
    StepsKeys(0, n);
    AreDistinct(0, n);
    hide Steps, Asymmetric, Timestamps;
    ShortSpanAsymmetric(Steps(0, n));
  }

  lemma Beaten(offs: seq<int>, r: Option<int>, better: int, o: int)
    requires Winner(offs, r) && multiset(offs)[better] > multiset(offs)[o]
    ensures r != Some(o)
  {
  }

  /**
   Two hundred keys that span far less than half the circle, half of which wrap around: the sorted
   receive log starts with the second half, and the true offset is not the one found.
   */
  lemma WrappedLogLost(r: Option<int>)
    requires Winner(LogOffsets(Sent(), Received()), r)
    ensures Timestamps(Sent()) && Timestamps(Received()) && Shifted(Sent(), Received(), WRAPPING)
    ensures Asymmetric(Sent()) && Asymmetric(Probe(Sorted(Sent())))
    ensures r != Some(WRAPPING % U32)
  {
    hide Steps, Offsets, Sorted, Shifted, Asymmetric, Timestamps, Received, Winner, Probe;
    LogsShifted();
    ProbeOfSent();
    ProbeOfReceived();
    StepsAsymmetric(200);
    StepsAsymmetric(120);
    ProbeKeys();
    var p, q := Steps(0, 120), Steps(0, 100) + Steps(WRAPPING, 20);
    FalseScore(p, q);
    TrueScore(p, q);
    Beaten(Offsets(p, q), r, 0, WRAPPING);
  }
}
