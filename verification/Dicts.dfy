/** A dictionary that remembers the order in which its keys came. */
module Dicts {
  import opened Options

  datatype Dict<K(==,!new), V> = Dict(keys: seq<K>, at: map<K, V>) {
    ghost predicate Valid() {
      Distinct(keys) && forall k :: k in keys <==> k in at
    }

    /** Assignment: the last value wins, an old key keeps its place. */
    function Put(k: K, v: V): (r: Dict<K, V>)
      ensures Valid() ==> r.Valid()
    {
      Dict(if k in at then keys else keys + [k], at[k := v])
    }

    /** setdefault: the first value wins. */
    function PutFirst(k: K, v: V): (r: Dict<K, V>)
      ensures Valid() ==> r.Valid()
    {
      if k in at then this else Put(k, v)
    }

    function Get(k: K): Option<V> {
      if k in at then Some(at[k]) else None
    }
  }

  function EmptyDict<K(==,!new), V>(): (r: Dict<K, V>)
    ensures r.Valid()
  {
    Dict([], map[])
  }

  ghost predicate Distinct<K>(ks: seq<K>) {
    forall i, j :: 0 <= i < j < |ks| ==> ks[i] != ks[j]
  }

  /** The entries of ks without repetitions, each where it came first. */
  function FirstSeen<K(==,!new)>(ks: seq<K>): (r: seq<K>)
    ensures forall k :: k in r <==> k in ks
    ensures Distinct(r)
  {
    if ks == [] then []
    else
      var r := FirstSeen(ks[..|ks| - 1]);
      var k := ks[|ks| - 1];
      assert ks == ks[..|ks| - 1] + [k];
      if k in r then r else r + [k]
  }

  /** k comes before any occurrence of l. */
  ghost predicate Before<K>(ks: seq<K>, k: K, l: K) {
    exists i :: 0 <= i < |ks| && ks[i] == k && forall j :: 0 <= j <= i ==> ks[j] != l
  }

  lemma {:induction false} FirstSeenOrder<K(!new)>(ks: seq<K>, i: nat, j: nat)
    requires i < j < |FirstSeen(ks)|
    ensures Before(ks, FirstSeen(ks)[i], FirstSeen(ks)[j])
  {
    var n := |ks| - 1;
    var r := FirstSeen(ks[..n]);
    if j < |r| {
      FirstSeenOrder(ks[..n], i, j);
      var a :| 0 <= a < n && ks[..n][a] == r[i] && forall b :: 0 <= b <= a ==> ks[..n][b] != r[j];
      assert ks[a] == r[i] && forall b :: 0 <= b <= a ==> ks[b] == ks[..n][b];
    } else {
      assert r[i] in ks[..n];
      var a :| 0 <= a < n && ks[..n][a] == r[i];
      assert forall b :: 0 <= b <= a ==> ks[b] == ks[..n][b] && ks[..n][b] in r;
    }
  }
}
