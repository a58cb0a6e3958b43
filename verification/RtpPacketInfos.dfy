/**
 A copyable sequence of packet descriptions. Copies share one immutable counted vector; the empty
 sequence has none. `Album` is any collection of such values changed by any chain of operations.
 */
module RtpPacketInfos {
  import opened Options
  import opened RefCounting
  import Runs = RefCountingRuns

  class PacketInfos<I> {
    const data: ScopedRefPtr<seq<I>>

    ghost predicate In(a: Arena<seq<I>>)
      reads a, data
    {
      data in a.ptrs && data.In(a) && (data.ptr != null ==> data.ptr.payload != [])
    }

    function Entries(): seq<I>
      reads data
    {
      if data.ptr != null then data.ptr.payload else []
    }

    function Size(): nat
      reads data
    {
      |Entries()|
    }

    function IsEmpty(): bool
      reads data
    {
      |Entries()| == 0
    }

    /** The bounds-checked access; None stands for the out-of-range exception. */
    function At(pos: nat): Option<I>
      reads data
    {
      if pos < Size() then Some(Entries()[pos]) else None
    }

    constructor Empty(ghost a: Arena<seq<I>>)
      requires a.Valid()
      modifies a`ptrs
      ensures a.Valid() && In(a) && fresh(data) && a.ptrs == old(a.ptrs) + {data}
      ensures Entries() == []
    {
      hide Counted<seq<I>>.Balanced, Arena<seq<I>>.Valid;
      data := new ScopedRefPtr<seq<I>>.Null(a);
    }

    /** Allocates nothing for the empty sequence. */
    constructor FromVector(ghost a: Arena<seq<I>>, entries: seq<I>)
      requires a.Valid()
      modifies a
      ensures a.Valid() && In(a) && fresh(data) && a.ptrs == old(a.ptrs) + {data}
      ensures Entries() == entries
      ensures a.objs == old(a.objs) + Target(data.ptr) && (data.ptr == null <==> entries == [])
      ensures data.ptr != null ==> fresh(data.ptr) && data.ptr.payload == entries
      ensures data.ptr != null ==> data.ptr.touched && data.ptr.raw == 0
    {
      hide Counted<seq<I>>.Balanced, Arena<seq<I>>.Valid;
      if entries == [] {
        data := new ScopedRefPtr<seq<I>>.Null(a);
      } else {
        data := new ScopedRefPtr<seq<I>>.Make(a, entries);
      }
    }

    constructor Copy(ghost a: Arena<seq<I>>, other: PacketInfos<I>)
      requires a.Valid() && other.In(a)
      modifies a`ptrs, other.data.Held()
      ensures a.Valid() && In(a) && fresh(data) && a.ptrs == old(a.ptrs) + {data}
      ensures data.ptr == other.data.ptr && Entries() == old(other.Entries())
      ensures data.ptr != null ==> data.ptr.touched && data.ptr.raw == old(other.data.ptr.raw)
    {
      hide Counted<seq<I>>.Balanced, Arena<seq<I>>.Valid;
      data := new ScopedRefPtr<seq<I>>.Copy(a, other.data);
    }

    /** Leaves the other one empty. */
    constructor Move(ghost a: Arena<seq<I>>, other: PacketInfos<I>)
      requires a.Valid() && other.In(a)
      modifies a`ptrs, other.data, other.data.Held()`holders, other.data.Held()`raw
      ensures a.Valid() && In(a) && other.In(a) && fresh(data) && a.ptrs == old(a.ptrs) + {data}
      ensures data.ptr == old(other.data.ptr) && Entries() == old(other.Entries()) && other.Entries() == []
      ensures data.ptr != null ==> data.ptr.raw == old(other.data.ptr.raw)
    {
      hide Counted<seq<I>>.Balanced, Arena<seq<I>>.Valid;
      data := new ScopedRefPtr<seq<I>>.Move(a, other.data);
    }

    method Assign(ghost a: Arena<seq<I>>, other: PacketInfos<I>)
      requires a.Valid() && In(a) && other.In(a)
      modifies data, data.Held()`refCount, data.Held()`holders, data.Held()`raw, data.Held()`deletions
      modifies other.data.Held()
      ensures a.Valid() && In(a) && other.In(a)
      ensures Entries() == old(other.Entries()) && other.Entries() == old(other.Entries())
      ensures data.ptr == old(other.data.ptr)
      ensures data.ptr != null ==> data.ptr.touched && data.ptr.raw == old(other.data.ptr.raw)
      ensures old(data.ptr) != null ==> old(data.ptr).raw == old(data.ptr.raw)
    {
      hide Counted<seq<I>>.Balanced, Arena<seq<I>>.Valid;
      data.AssignCopy(a, other.data);
    }

    method AssignMove(ghost a: Arena<seq<I>>, other: PacketInfos<I>)
      requires a.Valid() && In(a) && other.In(a) && (other != this ==> other.data != data)
      modifies a`ptrs, data, other.data
      modifies data.Held()`refCount, data.Held()`holders, data.Held()`raw, data.Held()`deletions
      modifies other.data.Held()`holders, other.data.Held()`raw
      ensures a.Valid() && In(a) && other.In(a) && a.ptrs == old(a.ptrs)
      ensures Entries() == old(other.Entries()) && (other != this ==> other.Entries() == [])
      ensures data.ptr == old(other.data.ptr) && (data.ptr != null ==> data.ptr.raw == old(other.data.ptr.raw))
      ensures old(data.ptr) != null ==> old(data.ptr).raw == old(data.ptr.raw)
    {
      hide Counted<seq<I>>.Balanced, Arena<seq<I>>.Valid;
      data.AssignMove(a, other.data);
    }

    method Destroy(ghost a: Arena<seq<I>>)
      requires a.Valid() && In(a)
      modifies a`ptrs, data`owns, data.Held()`refCount, data.Held()`holders, data.Held()`raw, data.Held()`deletions
      ensures a.Valid() && a.ptrs == old(a.ptrs) - {data}
      ensures data.ptr != null ==> data.ptr.raw == old(data.ptr.raw)
    {
      hide Counted<seq<I>>.Balanced, Arena<seq<I>>.Valid;
      data.Destroy(a);
    }
  }

  datatype Op<I> =
    | MakeEmpty
    | FromVector(entries: seq<I>)
    | CopyOf(i: nat)
    | MoveOf(i: nat)
    | AssignCopy(i: nat, j: nat)
    | AssignMove(i: nat, j: nat)
    | Destroy(i: nat)

  predicate Applicable<I>(m: seq<seq<I>>, op: Op<I>) {
    match op
    case MakeEmpty => true
    case FromVector(_) => true
    case CopyOf(i) => i < |m|
    case MoveOf(i) => i < |m|
    case AssignCopy(i, j) => i < |m| && j < |m|
    case AssignMove(i, j) => i < |m| && j < |m|
    case Destroy(i) => i < |m|
  }

  /** The same operation on plain immutable sequences: nothing is shared, nothing is counted. */
  function Apply<I>(m: seq<seq<I>>, op: Op<I>): seq<seq<I>>
    requires Applicable(m, op)
  {
    match op
    case MakeEmpty => m + [[]]
    case FromVector(v) => m + [v]
    case CopyOf(i) => m + [m[i]]
    case MoveOf(i) => m[i := []] + [m[i]]
    case AssignCopy(i, j) => m[i := m[j]]
    case AssignMove(i, j) => m[j := []][i := m[j]]
    case Destroy(i) => m[..i] + m[i + 1..]
  }

  /** An operation that names a value that does not exist does nothing. */
  function ApplyAll<I>(m: seq<seq<I>>, ops: seq<Op<I>>): seq<seq<I>> {
    if ops == [] then m
    else
      var before := ApplyAll(m, ops[..|ops| - 1]);
      var op := ops[|ops| - 1];
      if Applicable(before, op) then Apply(before, op) else before
  }

  /** What an operation says of each value: it changes the ones it names and no other. */
  lemma ApplyLaws<I>(m: seq<seq<I>>, op: Op<I>)
    requires Applicable(m, op)
    ensures var r := Apply(m, op);
            match op
            case MakeEmpty => |r| == |m| + 1 && r[..|m|] == m && r[|m|] == []
            case FromVector(v) => |r| == |m| + 1 && r[..|m|] == m && r[|m|] == v
            case CopyOf(i) => |r| == |m| + 1 && r[..|m|] == m && r[|m|] == m[i]
            case MoveOf(i) =>
              && |r| == |m| + 1 && r[|m|] == m[i] && r[i] == []
              && forall k :: 0 <= k < |m| && k != i ==> r[k] == m[k]
            case AssignCopy(i, j) =>
              |r| == |m| && r[i] == m[j] && forall k :: 0 <= k < |m| && k != i ==> r[k] == m[k]
            case AssignMove(i, j) =>
              && |r| == |m| && r[i] == m[j] && (i != j ==> r[j] == [])
              && forall k :: 0 <= k < |m| && k != i && k != j ==> r[k] == m[k]
            case Destroy(i) =>
              && |r| == |m| - 1 && (forall k :: 0 <= k < i ==> r[k] == m[k])
              && forall k :: i < k < |m| ==> r[k - 1] == m[k]
  {
  }

  /** Distinct entries: as many positions as values found there. */
  lemma {:induction false} PositionsOf<X>(xs: seq<X>, s: set<nat>, t: set<X>)
    requires forall i, j :: 0 <= i < j < |xs| ==> xs[i] != xs[j]
    requires forall i :: i in s ==> 0 <= i < |xs| && xs[i] in t
    requires forall x :: x in t ==> exists i :: i in s && xs[i] == x
    ensures |s| == |t|
  {
    if s != {} {
      var i :| i in s;
      PositionsOf(xs, s - {i}, t - {xs[i]});
    } else {
      assert t == {};
    }
  }

  ghost function Datas<I>(infos: seq<PacketInfos<I>>): seq<ScopedRefPtr<seq<I>>> {
    seq(|infos|, i requires 0 <= i < |infos| => infos[i].data)
  }

  class Album<I> {
    ghost const a: Arena<seq<I>>
    var infos: seq<PacketInfos<I>>

    ghost predicate Linked()
      reads this, a, a.ptrs, a.objs
    {
      && a.Valid()
      && (forall i :: 0 <= i < |infos| ==> infos[i].data in a.ptrs && infos[i].In(a))
      && (forall i, j :: 0 <= i < j < |infos| ==> infos[i] != infos[j] && infos[i].data != infos[j].data)
      && (forall o :: o in a.objs ==> o.touched && o.raw == 0)
    }

    ghost predicate Valid()
      reads this, a, a.ptrs, a.objs
    {
      Linked() && forall p :: p in a.ptrs ==> p in Datas(infos)
    }

    ghost predicate Shows(m: seq<seq<I>>)
      requires Linked()
      reads this, a, a.ptrs, a.objs
    {
      |m| == |infos| && forall i :: 0 <= i < |infos| ==> infos[i].Entries() == m[i]
    }

    constructor ()
      ensures Valid() && Shows([]) && fresh(a) && a.ptrs == {} && a.objs == {}
    {
      a := new Arena<seq<I>>();
      infos := [];
    }

    /** Emptiness is exactly the absence of an allocation; the accessors agree with the sequence last put there. */
    lemma Reads(m: seq<seq<I>>, i: nat, pos: nat)
      requires Valid() && Shows(m) && i < |m|
      ensures infos[i].Size() == |m[i]| && (infos[i].IsEmpty() <==> m[i] == [])
      ensures infos[i].IsEmpty() <==> infos[i].data.ptr == null
      ensures infos[i].At(pos) == if pos < |m[i]| then Some(m[i][pos]) else None
    {
      assert infos[i].In(a);
    }

    /** A shared vector is alive exactly while some value shows it, and the count is how many do. */
    lemma SharedWhileShown(o: Counted<seq<I>>)
      requires Valid() && o in a.objs
      ensures o.deletions == 0 <==> exists i :: 0 <= i < |infos| && infos[i].data.ptr == o
      ensures o.refCount == |set i | 0 <= i < |infos| && infos[i].data.ptr == o|
    {
      Runs.CountConserved(a, o);
      var s: set<nat> := set i | 0 <= i < |infos| && infos[i].data.ptr == o;
      PositionsOf(Datas(infos), s, Runs.Pointing(a, o));
      if i :| 0 <= i < |infos| && infos[i].data.ptr == o {
        assert infos[i].data in Runs.Pointing(a, o);
      }
    }

    method Append(ghost m: seq<seq<I>>, v: PacketInfos<I>)
      requires Linked() && Shows(m) && forall j :: 0 <= j < |infos| ==> infos[j] != v && infos[j].data != v.data
      requires v.data in a.ptrs && v.In(a) && forall p :: p in a.ptrs ==> p in Datas(infos) || p == v.data
      modifies `infos
      ensures Valid() && Shows(m + [v.Entries()])
    {
      hide Counted<seq<I>>.Balanced, Arena<seq<I>>.Valid, PacketInfos<I>.Entries;
      ghost var datas := Datas(infos);
      infos := infos + [v];
      assert Datas(infos) == datas + [v.data];
    }

    /** Forgets a value whose destructor has run. */
    method Remove(ghost m: seq<seq<I>>, i: nat)
      requires a.Valid() && i < |infos| && |m| == |infos|
      requires forall j :: 0 <= j < |infos| && j != i ==>
                 infos[j].data in a.ptrs && infos[j].In(a) && infos[j].Entries() == m[j]
      requires forall j, k :: 0 <= j < k < |infos| ==> infos[j] != infos[k] && infos[j].data != infos[k].data
      requires forall p :: p in a.ptrs ==> p in Datas(infos) && p != infos[i].data
      requires forall o :: o in a.objs ==> o.touched && o.raw == 0
      modifies `infos
      ensures Valid() && Shows(m[..i] + m[i + 1..])
    {
      hide Counted<seq<I>>.Balanced, Arena<seq<I>>.Valid, PacketInfos<I>.Entries, PacketInfos<I>.In;
      ghost var datas := Datas(infos);
      infos := infos[..i] + infos[i + 1..];
      assert Datas(infos) == datas[..i] + datas[i + 1..];
      assert datas == datas[..i] + [datas[i]] + datas[i + 1..];
    }

    method MakeEmpty(ghost m: seq<seq<I>>)
      requires Valid() && Shows(m)
      modifies this, a, a.ptrs, a.objs
      ensures Valid() && Shows(Apply(m, Op<I>.MakeEmpty))
      ensures fresh(a.ptrs - old(a.ptrs)) && a.objs == old(a.objs)
    {
      hide Counted<seq<I>>.Balanced, Arena<seq<I>>.Valid, PacketInfos<I>.Entries, Datas;
      var v := new PacketInfos<I>.Empty(a);
      Append(m, v);
    }

    method FromVector(ghost m: seq<seq<I>>, entries: seq<I>)
      requires Valid() && Shows(m)
      modifies this, a, a.ptrs, a.objs
      ensures Valid() && Shows(Apply(m, Op.FromVector(entries)))
      ensures fresh(a.ptrs - old(a.ptrs)) && fresh(a.objs - old(a.objs))
      ensures forall o :: o in a.objs - old(a.objs) ==> o.payload == entries && entries != []
    {
      hide Counted<seq<I>>.Balanced, Arena<seq<I>>.Valid, PacketInfos<I>.Entries, Datas;
      var v := new PacketInfos<I>.FromVector(a, entries);
      Append(m, v);
    }

    method CopyOf(ghost m: seq<seq<I>>, i: nat)
      requires Valid() && Shows(m) && i < |infos|
      modifies this, a, a.ptrs, a.objs
      ensures Valid() && Shows(Apply(m, Op.CopyOf(i)))
      ensures fresh(a.ptrs - old(a.ptrs)) && a.objs == old(a.objs)
    {
      hide Counted<seq<I>>.Balanced, Arena<seq<I>>.Valid, PacketInfos<I>.Entries, Datas;
      var v := new PacketInfos<I>.Copy(a, infos[i]);
      Append(m, v);
    }

    method MoveOf(ghost m: seq<seq<I>>, i: nat)
      requires Valid() && Shows(m) && i < |infos|
      modifies this, a, a.ptrs, a.objs
      ensures Valid() && Shows(Apply(m, Op.MoveOf(i)))
      ensures fresh(a.ptrs - old(a.ptrs)) && a.objs == old(a.objs)
    {
      hide Counted<seq<I>>.Balanced, Arena<seq<I>>.Valid, PacketInfos<I>.Entries, Datas;
      var v := new PacketInfos<I>.Move(a, infos[i]);
      Append(m[i := []], v);
    }

    method AssignCopy(ghost m: seq<seq<I>>, i: nat, j: nat)
      requires Valid() && Shows(m) && i < |infos| && j < |infos|
      modifies this, a, a.ptrs, a.objs
      ensures Valid() && Shows(Apply(m, Op.AssignCopy(i, j)))
      ensures fresh(a.ptrs - old(a.ptrs)) && a.objs == old(a.objs)
    {
      hide Counted<seq<I>>.Balanced, Arena<seq<I>>.Valid, PacketInfos<I>.Entries, Datas;
      infos[i].Assign(a, infos[j]);
    }

    method AssignMove(ghost m: seq<seq<I>>, i: nat, j: nat)
      requires Valid() && Shows(m) && i < |infos| && j < |infos|
      modifies this, a, a.ptrs, a.objs
      ensures Valid() && Shows(Apply(m, Op.AssignMove(i, j)))
      ensures fresh(a.ptrs - old(a.ptrs)) && a.objs == old(a.objs)
    {
      hide Counted<seq<I>>.Balanced, Arena<seq<I>>.Valid, PacketInfos<I>.Entries, Datas;
      infos[i].AssignMove(a, infos[j]);
    }

    method Destroy(ghost m: seq<seq<I>>, i: nat)
      requires Valid() && Shows(m) && i < |infos|
      modifies this, a, a.ptrs, a.objs
      ensures Valid() && Shows(Apply(m, Op.Destroy(i)))
      ensures fresh(a.ptrs - old(a.ptrs)) && a.objs == old(a.objs)
    {
      hide Counted<seq<I>>.Balanced, Arena<seq<I>>.Valid, PacketInfos<I>.Entries, Datas;
      infos[i].Destroy(a);
      Remove(m, i);
    }

    method Step(ghost m: seq<seq<I>>, op: Op<I>)
      requires Valid() && Shows(m)
      modifies this, a, a.ptrs, a.objs
      ensures Valid() && Shows(if Applicable(m, op) then Apply(m, op) else m)
      ensures fresh(a.ptrs - old(a.ptrs)) && fresh(a.objs - old(a.objs))
      ensures forall o :: o in a.objs - old(a.objs) ==> o.payload != []
    {
      hide Counted<seq<I>>.Balanced, Arena<seq<I>>.Valid, Apply, Linked;
      match op
      case MakeEmpty => MakeEmpty(m);
      case FromVector(entries) => FromVector(m, entries);
      case CopyOf(i) => if i < |infos| { CopyOf(m, i); }
      case MoveOf(i) => if i < |infos| { MoveOf(m, i); }
      case AssignCopy(i, j) => if i < |infos| && j < |infos| { AssignCopy(m, i, j); }
      case AssignMove(i, j) => if i < |infos| && j < |infos| { AssignMove(m, i, j); }
      case Destroy(i) => if i < |infos| { Destroy(m, i); }
    }
  }

  /**
   Any chain of operations: each value reads as the immutable sequence last put there, a shared vector is
   alive exactly while some value shows it, and no vector was ever allocated for an empty sequence.
   */
  method Run<I>(ops: seq<Op<I>>) returns (album: Album<I>)
    ensures fresh(album) && album.Valid() && album.Shows(ApplyAll([], ops))
    ensures forall o :: o in album.a.objs ==> o.payload != []
    ensures forall o :: o in album.a.objs ==>
              (o.deletions == 0 <==> exists i :: 0 <= i < |album.infos| && album.infos[i].data.ptr == o)
  {
    album := new Album<I>();
    for n := 0 to |ops|
      invariant fresh(album) && fresh(album.a) && fresh(album.a.ptrs) && fresh(album.a.objs)
      invariant album.Valid() && album.Shows(ApplyAll([], ops[..n]))
      invariant forall o :: o in album.a.objs ==> o.payload != []
    {
      assert ops[..n + 1][..n] == ops[..n];
      album.Step(ApplyAll([], ops[..n]), ops[n]);
    }
    assert ops[..|ops|] == ops;
    forall o | o in album.a.objs
      ensures o.deletions == 0 <==> exists i :: 0 <= i < |album.infos| && album.infos[i].data.ptr == o
    {
      album.SharedWhileShown(o);
    }
  }
}
