/** Arbitrary programs over smart pointers and raw references, from an empty heap to an empty one. */
module RefCountingRuns {
  import opened RefCounting

  /** What a program can do; an operand that names no live pointer or raw reference does nothing. */
  datatype Op<T> =
    | DoNull
    | DoMake(payload: T)
    | DoCopy(i: nat)
    | DoMove(i: nat)
    | DoFromRaw(k: nat)
    | DoAssignNull(i: nat)
    | DoAssignRaw(i: nat, k: nat)
    | DoAssignCopy(i: nat, j: nat)
    | DoAssignMove(i: nat, j: nat)
    | DoSwap(i: nat, j: nat)
    | DoSwapRaw(i: nat, k: nat)
    | DoRelease(i: nat)
    | DoDestroy(i: nat)
    | DoAddRef(i: nat)
    | DoReleaseRaw(k: nat)

  ghost function Pointing<T>(a: Arena<T>, o: Counted<T>): set<ScopedRefPtr<T>>
    reads a, a.ptrs
  {
    set p | p in a.ptrs && p.ptr == o
  }

  /** The count is the pointers showing the object plus the raw references; deletion is decided by it. */
  lemma CountConserved<T>(a: Arena<T>, o: Counted<T>)
    requires a.Valid() && o in a.objs && forall p :: p in a.ptrs ==> p.In(a)
    ensures o.refCount == |Pointing(a, o)| + o.raw
    ensures o.deletions == 1 <==> o.touched && Pointing(a, o) == {} && o.raw == 0
    ensures o.deletions <= 1
  {
    assert Pointing(a, o) == o.holders;
  }

  function Dropped<X>(s: seq<X>, i: nat): (r: seq<X>)
    requires i < |s|
    ensures forall k :: 0 <= k < |r| ==> r[k] in s
    ensures multiset(r) == multiset(s) - multiset{s[i]}
  {
    assert s == s[..i] + [s[i]] + s[i + 1..];
    s[..i] + s[i + 1..]
  }

  function One<T>(x: Counted<T>, y: Counted?<T>): nat {
    if x == y then 1 else 0
  }

  /** The references after entry k was exchanged for one to o, or for nothing. */
  function Exchanged<T>(s: seq<Counted<T>>, k: nat, o: Counted?<T>): (r: seq<Counted<T>>)
    requires k < |s|
    ensures forall i :: 0 <= i < |r| ==> r[i] in s || r[i] == o
  {
    if o == null then Dropped(s, k) else Dropped(s, k) + [o]
  }

  lemma ExchangedCounts<T>(s: seq<Counted<T>>, k: nat, o: Counted?<T>, x: Counted<T>)
    requires k < |s|
    ensures multiset(Exchanged(s, k, o))[x] == multiset(s)[x] - One(x, s[k]) + One(x, o)
  {
    hide Dropped;
    if o != null {
      assert multiset(Dropped(s, k) + [o]) == multiset(Dropped(s, k)) + multiset{o};
    }
  }

  class Program<T> {
    ghost const a: Arena<T>
    var live: seq<ScopedRefPtr<T>>     // the live pointers
    var raws: seq<Counted<T>>          // the raw references not yet given back

    ghost predicate Linked()
      reads this, a, a.ptrs, a.objs
    {
      && a.Valid()
      && (forall i :: 0 <= i < |live| ==> live[i] in a.ptrs && live[i].In(a))
      && (forall i, j :: 0 <= i < j < |live| ==> live[i] != live[j])
      && (forall p :: p in a.ptrs ==> p in live)
      && (forall k :: 0 <= k < |raws| ==> raws[k] in a.objs)
    }

    ghost predicate Valid()
      reads this, a, a.ptrs, a.objs
    {
      && Linked()
      && (forall o :: o in a.objs ==> o.touched && o.raw == multiset(raws)[o])
    }

    constructor ()
      ensures Valid() && live == [] && raws == [] && fresh(a) && a.ptrs == {} && a.objs == {}
    {
      a := new Arena<T>();
      live, raws := [], [];
    }

    /** A raw reference not yet given back keeps its object alive. */
    lemma Owed(k: nat)
      requires Valid() && k < |raws|
      ensures raws[k].raw > 0 && raws[k].deletions == 0 && raws[k].Balanced()
    {
      assert raws[k] in multiset(raws);
      Referenced(raws[k]);
    }

    method MakeNull()
      requires Valid()
      modifies this, a, a.ptrs, a.objs
      ensures Valid() && a.objs >= old(a.objs)
      ensures fresh(a.ptrs - old(a.ptrs)) && fresh(a.objs - old(a.objs))
    {
      hide Counted<T>.Balanced, Arena<T>.Valid, Dropped;
      var p := new ScopedRefPtr<T>.Null(a);
      live := live + [p];
    }

    method MakeObject(x: T)
      requires Valid()
      modifies this, a, a.ptrs, a.objs
      ensures Valid() && a.objs >= old(a.objs)
      ensures fresh(a.ptrs - old(a.ptrs)) && fresh(a.objs - old(a.objs))
    {
      hide Counted<T>.Balanced, Arena<T>.Valid, Dropped;
      var p := new ScopedRefPtr<T>.Make(a, x);
      live := live + [p];
    }

    method CopyFrom(i: nat)
      requires Valid() && i < |live|
      modifies this, a, a.ptrs, a.objs
      ensures Valid() && a.objs >= old(a.objs)
      ensures fresh(a.ptrs - old(a.ptrs)) && fresh(a.objs - old(a.objs))
    {
      hide Counted<T>.Balanced, Arena<T>.Valid, Dropped;
      var p := new ScopedRefPtr<T>.Copy(a, live[i]);
      live := live + [p];
    }

    method MoveFrom(i: nat)
      requires Valid() && i < |live|
      modifies this, a, a.ptrs, a.objs
      ensures Valid() && a.objs >= old(a.objs)
      ensures fresh(a.ptrs - old(a.ptrs)) && fresh(a.objs - old(a.objs))
    {
      hide Counted<T>.Balanced, Arena<T>.Valid, Dropped;
      var p := new ScopedRefPtr<T>.Move(a, live[i]);
      live := live + [p];
    }

    method FromRaw(k: nat)
      requires Valid() && k < |raws|
      modifies this, a, a.ptrs, a.objs
      ensures Valid() && a.objs >= old(a.objs)
      ensures fresh(a.ptrs - old(a.ptrs)) && fresh(a.objs - old(a.objs))
    {
      hide Counted<T>.Balanced, Arena<T>.Valid, Dropped;
      Owed(k);
      var o := raws[k];
      assert Target(o) == {o};
      var p := new ScopedRefPtr<T>.FromRaw(a, o);
      live := live + [p];
    }

    method AssignNull(i: nat)
      requires Valid() && i < |live|
      modifies this, a, a.ptrs, a.objs
      ensures Valid() && a.objs >= old(a.objs)
      ensures fresh(a.ptrs - old(a.ptrs)) && fresh(a.objs - old(a.objs))
    {
      hide Counted<T>.Balanced, Arena<T>.Valid, Dropped;
      live[i].Assign(a, null);
    }

    method AssignRaw(i: nat, k: nat)
      requires Valid() && i < |live| && k < |raws|
      modifies this, a, a.ptrs, a.objs
      ensures Valid() && a.objs >= old(a.objs)
      ensures fresh(a.ptrs - old(a.ptrs)) && fresh(a.objs - old(a.objs))
    {
      hide Counted<T>.Balanced, Arena<T>.Valid, Dropped;
      Owed(k);
      live[i].Assign(a, raws[k]);
    }

    method AssignCopy(i: nat, j: nat)
      requires Valid() && i < |live| && j < |live|
      modifies this, a, a.ptrs, a.objs
      ensures Valid() && a.objs >= old(a.objs)
      ensures fresh(a.ptrs - old(a.ptrs)) && fresh(a.objs - old(a.objs))
    {
      hide Counted<T>.Balanced, Arena<T>.Valid, Dropped;
      live[i].AssignCopy(a, live[j]);
    }

    method AssignMove(i: nat, j: nat)
      requires Valid() && i < |live| && j < |live|
      modifies this, a, a.ptrs, a.objs
      ensures Valid() && a.objs >= old(a.objs)
      ensures fresh(a.ptrs - old(a.ptrs)) && fresh(a.objs - old(a.objs))
    {
      hide Counted<T>.Balanced, Arena<T>.Valid, Dropped;
      live[i].AssignMove(a, live[j]);
    }

    method Swap(i: nat, j: nat)
      requires Valid() && i < |live| && j < |live|
      modifies this, a, a.ptrs, a.objs
      ensures Valid() && a.objs >= old(a.objs)
      ensures fresh(a.ptrs - old(a.ptrs)) && fresh(a.objs - old(a.objs))
    {
      hide Counted<T>.Balanced, Arena<T>.Valid, Dropped;
      live[i].Swap(a, live[j]);
    }

    method SwapRaw(i: nat, k: nat)
      requires Valid() && i < |live| && k < |raws|
      modifies this, a, a.ptrs, a.objs
      ensures Valid() && a.objs >= old(a.objs)
      ensures fresh(a.ptrs - old(a.ptrs)) && fresh(a.objs - old(a.objs))
    {
      hide Counted<T>.Balanced, Arena<T>.Valid, Dropped;
      Owed(k);
      var r := raws[k];
      var o := live[i].SwapRaw(a, r);
      Exchange(k, o);
    }

    /** The slot that held raw reference k now holds one to o. */
    method Exchange(k: nat, o: Counted?<T>)
      requires Linked() && k < |raws| && (o != null ==> o in a.objs)
      requires forall x :: x in a.objs ==> x.touched && x.raw == multiset(raws)[x] - One(x, raws[k]) + One(x, o)
      modifies `raws
      ensures Valid()
    {
      hide Counted<T>.Balanced, Arena<T>.Valid, Exchanged;
      ghost var was := raws;
      raws := Exchanged(raws, k, o);
      forall x | x in a.objs ensures x.raw == multiset(raws)[x] {
        ExchangedCounts(was, k, o, x);
      }
    }

    method Release(i: nat)
      requires Valid() && i < |live|
      modifies this, a, a.ptrs, a.objs
      ensures Valid() && a.objs >= old(a.objs)
      ensures fresh(a.ptrs - old(a.ptrs)) && fresh(a.objs - old(a.objs))
    {
      hide Counted<T>.Balanced, Arena<T>.Valid, Dropped;
      var o := live[i].Release(a);
      raws := raws + if o == null then [] else [o];
    }

    method Destroy(i: nat)
      requires Valid() && i < |live|
      modifies this, a, a.ptrs, a.objs
      ensures Valid() && a.objs >= old(a.objs)
      ensures fresh(a.ptrs - old(a.ptrs)) && fresh(a.objs - old(a.objs))
      ensures |live| == old(|live|) - 1 && raws == old(raws) && a.objs == old(a.objs)
    {
      hide Counted<T>.Balanced, Arena<T>.Valid;
      live[i].Destroy(a);
      live := Dropped(live, i);
    }

    method AddRef(i: nat)
      requires Valid() && i < |live|
      modifies this, a, a.ptrs, a.objs
      ensures Valid() && a.objs >= old(a.objs)
      ensures fresh(a.ptrs - old(a.ptrs)) && fresh(a.objs - old(a.objs))
    {
      hide Counted<T>.Balanced, Arena<T>.Valid, Dropped;
      var o := live[i].ptr;
      if o != null {
        live[i].Alive(a);
        TakeRaw(a, o);
        raws := raws + [o];
      }
    }

    method ReleaseRaw(k: nat)
      requires Valid() && k < |raws|
      modifies this, a, a.ptrs, a.objs
      ensures Valid() && a.objs >= old(a.objs)
      ensures fresh(a.ptrs - old(a.ptrs)) && fresh(a.objs - old(a.objs))
      ensures |raws| == old(|raws|) - 1 && live == old(live) && a.objs == old(a.objs)
    {
      hide Counted<T>.Balanced, Arena<T>.Valid, Dropped;
      Owed(k);
      ghost var m := multiset(raws) - multiset{raws[k]};
      DropRaw(a, raws[k]);
      raws := Dropped(raws, k);
      assert multiset(raws) == m;
    }

    method Step(op: Op<T>)
      requires Valid()
      modifies this, a, a.ptrs, a.objs
      ensures Valid() && a.objs >= old(a.objs)
      ensures fresh(a.ptrs - old(a.ptrs)) && fresh(a.objs - old(a.objs))
    {
      hide *;
      match op
      case DoNull => MakeNull();
      case DoMake(x) => MakeObject(x);
      case DoCopy(i) => if i < |live| { CopyFrom(i); }
      case DoMove(i) => if i < |live| { MoveFrom(i); }
      case DoFromRaw(k) => if k < |raws| { FromRaw(k); }
      case DoAssignNull(i) => if i < |live| { AssignNull(i); }
      case DoAssignRaw(i, k) => if i < |live| && k < |raws| { AssignRaw(i, k); }
      case DoAssignCopy(i, j) => if i < |live| && j < |live| { AssignCopy(i, j); }
      case DoAssignMove(i, j) => if i < |live| && j < |live| { AssignMove(i, j); }
      case DoSwap(i, j) => if i < |live| && j < |live| { Swap(i, j); }
      case DoSwapRaw(i, k) => if i < |live| && k < |raws| { SwapRaw(i, k); }
      case DoRelease(i) => if i < |live| { Release(i); }
      case DoDestroy(i) => if i < |live| { Destroy(i); }
      case DoAddRef(i) => if i < |live| { AddRef(i); }
      case DoReleaseRaw(k) => if k < |raws| { ReleaseRaw(k); }
    }
  }

  /** Any program from an empty heap. */
  method Run<T>(ops: seq<Op<T>>) returns (p: Program<T>)
    ensures fresh(p) && fresh(p.a) && fresh(p.a.ptrs) && fresh(p.a.objs) && p.Valid()
    ensures forall o :: o in p.a.objs ==> o.refCount == |Pointing(p.a, o)| + multiset(p.raws)[o]
    ensures forall o :: o in p.a.objs ==> o.deletions == if Pointing(p.a, o) == {} && o !in p.raws then 1 else 0
  {
    p := new Program<T>();
    for n := 0 to |ops|
      invariant fresh(p) && fresh(p.a) && fresh(p.a.ptrs) && fresh(p.a.objs) && p.Valid()
    {
      p.Step(ops[n]);
    }
    forall o | o in p.a.objs
      ensures o.refCount == |Pointing(p.a, o)| + multiset(p.raws)[o]
      ensures o.deletions == if Pointing(p.a, o) == {} && o !in p.raws then 1 else 0
    {
      CountConserved(p.a, o);
      assert o in p.raws <==> o in multiset(p.raws);
    }
  }

  /** Once the last pointer has died and the last raw reference is given back, every object has been deleted, once. */
  method RunOut<T>(ops: seq<Op<T>>) returns (p: Program<T>)
    ensures p.Valid() && p.live == [] && p.raws == []
    ensures forall o :: o in p.a.objs ==> o.refCount == 0 && o.deletions == 1
  {
    hide Counted<T>.Balanced, Arena<T>.Valid;
    p := Run(ops);
    while |p.live| > 0
      invariant fresh(p) && fresh(p.a) && fresh(p.a.ptrs) && fresh(p.a.objs) && p.Valid()
    {
      p.Destroy(|p.live| - 1);
    }
    while |p.raws| > 0
      invariant fresh(p) && fresh(p.a) && fresh(p.a.ptrs) && fresh(p.a.objs) && p.Valid() && p.live == []
    {
      p.ReleaseRaw(|p.raws| - 1);
    }
    forall o | o in p.a.objs
      ensures o.refCount == 0 && o.deletions == 1
    {
      CountConserved(p.a, o);
    }
  }
}
