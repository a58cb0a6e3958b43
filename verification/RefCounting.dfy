/**
 Intrusive reference counting. `Counted` is the counted object, `ScopedRefPtr` the smart pointer,
 and the ghost `Arena` is the whole heap: every live pointer and every object ever created. Each
 pointer operation keeps the arena's conservation law, so every run of operations does.
 */
module RefCounting {

  class Counted<T> {
    const payload: T
    var refCount: int
    ghost var touched: bool                    // some reference was taken once
    ghost var holders: set<ScopedRefPtr<T>>    // the pointers owning a reference
    ghost var raw: nat                         // references owned by no pointer
    ghost var deletions: nat

    constructor (payload: T)
      ensures this.payload == payload && refCount == 0
      ensures !touched && holders == {} && raw == 0 && deletions == 0 && Balanced()
    {
      this.payload, refCount := payload, 0;
      touched, holders, raw, deletions := false, {}, 0, 0;
    }

    /**
     The count is the references owned by pointers plus the raw ones, and the object has been
     deleted, once, exactly when a count that was positive has come back to zero.
     */
    ghost predicate Balanced()
      reads this
    {
      && refCount == |holders| + raw
      && deletions == (if touched && refCount == 0 then 1 else 0)
      && (!touched ==> refCount == 0)
    }

    method AddRef()
      requires Balanced() && deletions == 0
      modifies `refCount, `touched, `raw
      ensures Balanced() && deletions == 0 && touched
      ensures raw == old(raw) + 1 && refCount == old(refCount) + 1
    {
      refCount := refCount + 1;
      touched, raw := true, raw + 1;
    }

    /** Deletes the object when this was the last reference. The caller owns a reference. */
    method Release() returns (droppedLast: bool)
      requires Balanced() && raw > 0
      modifies `refCount, `raw, `deletions
      ensures Balanced() && raw == old(raw) - 1 && refCount == old(refCount) - 1
      ensures droppedLast <==> deletions == 1
      ensures droppedLast <==> holders == {} && raw == 0
    {
      Referenced(this);
      refCount := refCount - 1;
      raw := raw - 1;
      droppedLast := refCount == 0;
      if droppedLast {
        deletions := deletions + 1;
      }
      assert holders == {} <==> |holders| == 0;
    }

    /** A raw reference becomes p's own. */
    ghost method Grant(p: ScopedRefPtr<T>)
      requires Balanced() && raw > 0 && p !in holders
      modifies `holders, `raw
      ensures Balanced() && raw == old(raw) - 1 && holders == old(holders) + {p}
    {
      holders, raw := holders + {p}, raw - 1;
    }

    /** p's own reference becomes a raw one. */
    ghost method Reclaim(p: ScopedRefPtr<T>)
      requires Balanced() && p in holders
      modifies `holders, `raw
      ensures Balanced() && raw == old(raw) + 1 && holders == old(holders) - {p}
    {
      holders, raw := holders - {p}, raw + 1;
    }
  }

  /** An object somebody references has not been deleted. */
  lemma Referenced<T>(o: Counted<T>)
    requires o.Balanced() && (o.raw > 0 || o.holders != {})
    ensures o.deletions == 0 && o.touched && o.refCount > 0
  {
    assert o.holders != {} ==> |o.holders| > 0;
  }

  class Arena<T> {
    ghost var ptrs: set<ScopedRefPtr<T>>
    ghost var objs: set<Counted<T>>

    ghost predicate Valid()
      reads this, ptrs, objs
    {
      && (forall o :: o in objs ==> o.Balanced())
      && (forall o, p :: o in objs && p in o.holders ==> p in ptrs && p.owns && p.ptr == o)
      && (forall p :: p in ptrs && p.owns ==> p.ptr != null && p.ptr in objs && p in p.ptr.holders)
    }

    ghost constructor ()
      ensures Valid() && ptrs == {} && objs == {}
    {
      ptrs, objs := {}, {};
    }
  }

  /** A client takes a raw reference. */
  method TakeRaw<T>(ghost a: Arena<T>, o: Counted<T>)
    requires a.Valid() && o in a.objs && o.deletions == 0
    modifies o`refCount, o`touched, o`raw
    ensures a.Valid() && o.deletions == 0 && o.touched && o.raw == old(o.raw) + 1
  {
    hide Counted<T>.Balanced;
    o.AddRef();
  }

  /** A client gives a raw reference back. */
  method DropRaw<T>(ghost a: Arena<T>, o: Counted<T>)
    requires a.Valid() && o in a.objs && o.raw > 0
    modifies o`refCount, o`raw, o`deletions
    ensures a.Valid() && o.raw == old(o.raw) - 1
    ensures o.deletions == 1 <==> o.holders == {} && o.raw == 0
  {
    hide Counted<T>.Balanced;
    var _ := o.Release();
  }

  class ScopedRefPtr<T> {
    var ptr: Counted?<T>
    ghost var owns: bool         // false while an operation is between giving up and taking a reference

    /** A live pointer of the arena, holding nothing or owning the reference to what it holds. */
    ghost predicate In(a: Arena<T>)
      reads a, this
    {
      this in a.ptrs && (owns <==> ptr != null) && (ptr != null ==> ptr in a.objs)
    }

    ghost function Held(): set<Counted<T>>
      reads this
    {
      Target(ptr)
    }

    /** Turns a raw reference into this pointer's own. */
    ghost method Attach(a: Arena<T>)
      requires a.Valid() && this in a.ptrs && !owns
      requires ptr != null ==> ptr in a.objs && ptr.raw > 0
      modifies `owns, Held()`holders, Held()`raw
      ensures a.Valid() && In(a)
      ensures ptr != null ==> ptr.raw == old(ptr.raw) - 1 && ptr.holders == old(ptr.holders) + {this}
    {
      hide Counted<T>.Balanced;
      if ptr != null {
        ptr.Grant(this);
        owns := true;
      }
    }

    /** Turns this pointer's own reference into a raw one. */
    ghost method Detach(a: Arena<T>)
      requires a.Valid() && In(a)
      modifies `owns, Held()`holders, Held()`raw
      ensures a.Valid() && !owns
      ensures ptr != null ==> ptr.raw == old(ptr.raw) + 1 && ptr.holders == old(ptr.holders) - {this}
    {
      hide Counted<T>.Balanced;
      if ptr != null {
        ptr.Reclaim(this);
        owns := false;
      }
    }

    /** What a live pointer shows has not been deleted: reading through it is safe. */
    lemma Alive(a: Arena<T>)
      requires a.Valid() && In(a) && ptr != null
      ensures ptr.Balanced() && ptr.deletions == 0 && ptr.refCount > 0
    {
      Referenced(ptr);
    }

    constructor Null(ghost a: Arena<T>)
      requires a.Valid()
      modifies a`ptrs
      ensures a.Valid() && In(a) && ptr == null && a.ptrs == old(a.ptrs) + {this}
    {
      hide Counted<T>.Balanced;
      ptr, owns := null, false;
      new;
      a.ptrs := a.ptrs + {this};
    }

    constructor FromRaw(ghost a: Arena<T>, p: Counted?<T>)
      requires a.Valid() && (p != null ==> p in a.objs && p.deletions == 0)
      modifies a`ptrs, Target(p)
      ensures a.Valid() && In(a) && ptr == p && a.ptrs == old(a.ptrs) + {this}
      ensures p != null ==> p.touched && p.raw == old(p.raw) && p.holders == old(p.holders) + {this}
    {
      hide Counted<T>.Balanced;
      ptr, owns := p, false;
      new;
      if ptr != null {
        ptr.AddRef();
      }
      a.ptrs := a.ptrs + {this};
      Attach(a);
    }

    /** make_ref_counted: a new object, held by the new pointer alone. */
    constructor Make(ghost a: Arena<T>, payload: T)
      requires a.Valid()
      modifies a
      ensures a.Valid() && In(a) && a.ptrs == old(a.ptrs) + {this}
      ensures ptr != null && fresh(ptr) && a.objs == old(a.objs) + {ptr}
      ensures ptr.payload == payload && ptr.holders == {this} && ptr.raw == 0 && ptr.touched
    {
      hide Counted<T>.Balanced;
      var o := new Counted<T>(payload);
      ptr, owns := o, false;
      new;
      a.objs := a.objs + {o};
      o.AddRef();
      a.ptrs := a.ptrs + {this};
      Attach(a);
    }

    constructor Copy(ghost a: Arena<T>, r: ScopedRefPtr<T>)
      requires a.Valid() && r.In(a)
      modifies a`ptrs, r.Held()
      ensures a.Valid() && In(a) && ptr == r.ptr && a.ptrs == old(a.ptrs) + {this}
      ensures ptr != null ==> ptr.touched && ptr.raw == old(r.ptr.raw) && ptr.holders == old(r.ptr.holders) + {this}
    {
      hide Counted<T>.Balanced;
      ptr, owns := r.ptr, false;
      new;
      if ptr != null {
        r.Alive(a);
        ptr.AddRef();
      }
      a.ptrs := a.ptrs + {this};
      Attach(a);
    }

    /** Takes over r's reference; the count does not move. */
    constructor Move(ghost a: Arena<T>, r: ScopedRefPtr<T>)
      requires a.Valid() && r.In(a)
      modifies a`ptrs, r, r.Held()`holders, r.Held()`raw
      ensures a.Valid() && In(a) && r.In(a) && ptr == old(r.ptr) && r.ptr == null && a.ptrs == old(a.ptrs) + {this}
      ensures ptr != null ==> ptr.raw == old(r.ptr.raw) && ptr.holders == old(r.ptr.holders) - {r} + {this}
    {
      hide Counted<T>.Balanced;
      var p := r.Release(a);
      ptr, owns := p, false;
      new;
      a.ptrs := a.ptrs + {this};
      Attach(a);
    }

    /** Hands the reference to the caller as a raw one. */
    method Release(ghost a: Arena<T>) returns (p: Counted?<T>)
      requires a.Valid() && In(a)
      modifies this, Held()`holders, Held()`raw
      ensures a.Valid() && In(a) && p == old(ptr) && ptr == null
      ensures p != null ==> p.raw == old(ptr.raw) + 1 && p.holders == old(ptr.holders) - {this} && p in a.objs
    {
      hide Counted<T>.Balanced;
      Detach(a);
      p := ptr;
      ptr := null;
    }

    /** Drops the reference held; the pointer is left dangling, to be overwritten or to die. */
    method Drop(ghost a: Arena<T>)
      requires a.Valid() && In(a)
      modifies `owns, Held()`refCount, Held()`holders, Held()`raw, Held()`deletions
      ensures a.Valid() && !owns
      ensures ptr != null ==> ptr.raw == old(ptr.raw) && ptr.holders == old(ptr.holders) - {this}
    {
      hide Counted<T>.Balanced;
      Detach(a);
      if ptr != null {
        var _ := ptr.Release();
      }
    }

    /** The destructor. */
    method Destroy(ghost a: Arena<T>)
      requires a.Valid() && In(a)
      modifies a`ptrs, `owns, Held()`refCount, Held()`holders, Held()`raw, Held()`deletions
      ensures a.Valid() && a.ptrs == old(a.ptrs) - {this}
      ensures ptr != null ==> ptr.raw == old(ptr.raw) && ptr.holders == old(ptr.holders) - {this}
    {
      hide Counted<T>.Balanced;
      Drop(a);
      a.ptrs := a.ptrs - {this};
    }

    /** Overwrites a pointer that owns nothing. */
    method Point(ghost a: Arena<T>, p: Counted?<T>)
      requires a.Valid() && this in a.ptrs && !owns
      modifies `ptr
      ensures a.Valid() && ptr == p
    {
      hide Counted<T>.Balanced;
      ptr := p;
    }

    /** Takes the new reference before dropping the old one, so assigning a pointer to itself is safe. */
    method Assign(ghost a: Arena<T>, p: Counted?<T>)
      requires a.Valid() && In(a) && (p != null ==> p in a.objs && p.deletions == 0)
      modifies this, Held()`refCount, Held()`holders, Held()`raw, Held()`deletions, Target(p)
      ensures a.Valid() && In(a) && ptr == p
      ensures p != null ==> p.touched && p.raw == old(p.raw) && p.holders == old(p.holders) + {this}
      ensures old(ptr) != null ==> old(ptr).raw == old(ptr.raw)
      ensures old(ptr) != null && old(ptr) != p ==> old(ptr).holders == old(ptr.holders) - {this}
    {
      hide Counted<T>.Balanced, Arena<T>.Valid;
      if p != null {
        TakeRaw(a, p);
      }
      Drop(a);
      Point(a, p);
      Attach(a);
    }

    method AssignCopy(ghost a: Arena<T>, r: ScopedRefPtr<T>)
      requires a.Valid() && In(a) && r.In(a)
      modifies this, Held()`refCount, Held()`holders, Held()`raw, Held()`deletions, r.Held()
      ensures a.Valid() && In(a) && r.In(a) && ptr == old(r.ptr) && r.ptr == old(r.ptr)
      ensures ptr != null ==> ptr.touched && ptr.raw == old(r.ptr.raw) && ptr.holders == old(r.ptr.holders) + {this}
      ensures old(ptr) != null ==> old(ptr).raw == old(ptr.raw)
      ensures old(ptr) != null && old(ptr) != ptr ==> old(ptr).holders == old(ptr.holders) - {this}
    {
      hide Counted<T>.Balanced;
      if r.ptr != null {
        Referenced(r.ptr);
      }
      Assign(a, r.ptr);
    }

    /** Exchanges the two pointers; no count moves. */
    method Swap(ghost a: Arena<T>, r: ScopedRefPtr<T>)
      requires a.Valid() && In(a) && r.In(a)
      modifies this, r, Held()`holders, Held()`raw, r.Held()`holders, r.Held()`raw
      ensures a.Valid() && In(a) && r.In(a) && ptr == old(r.ptr) && r.ptr == old(ptr)
      ensures ptr != r.ptr && ptr != null ==> ptr.holders == old(r.ptr.holders) - {r} + {this}
      ensures ptr != r.ptr && r.ptr != null ==> r.ptr.holders == old(ptr.holders) - {this} + {r}
      ensures ptr == r.ptr && ptr != null ==> ptr.holders == old(ptr.holders)
      ensures ptr != null ==> ptr.raw == old(r.ptr.raw)
      ensures r.ptr != null ==> r.ptr.raw == old(ptr.raw)
    {
      hide Counted<T>.Balanced;
      var p := ptr;
      ghost var differ := ptr != r.ptr;
      if differ {
        Detach(a);
        r.Detach(a);
      }
      ptr := r.ptr;
      r.ptr := p;
      if differ {
        Attach(a);
        r.Attach(a);
      }
    }

    /**
     Exchanges with a raw slot: the caller gives up a raw reference to p and gets one to the object
     formerly held. No count moves.
     */
    method SwapRaw(ghost a: Arena<T>, p: Counted?<T>) returns (q: Counted?<T>)
      requires a.Valid() && In(a) && (p != null ==> p in a.objs && p.raw > 0)
      modifies this, Held()`holders, Held()`raw, Target(p)`holders, Target(p)`raw
      ensures a.Valid() && In(a) && ptr == p && q == old(ptr)
      ensures p != null ==> p.holders == old(p.holders) + {this}
      ensures p != null && p != q ==> p.raw == old(p.raw) - 1
      ensures q != null && p != q ==> q.raw == old(ptr.raw) + 1 && q.holders == old(ptr.holders) - {this}
      ensures q != null && p == q ==> q.raw == old(ptr.raw)
    {
      hide Counted<T>.Balanced;
      Detach(a);
      q := ptr;
      ptr := p;
      Attach(a);
    }

    /** Through a temporary: its destructor drops what this pointer held before. */
    method AssignMove(ghost a: Arena<T>, r: ScopedRefPtr<T>)
      requires a.Valid() && In(a) && r.In(a)
      modifies a`ptrs, this, r, Held()`refCount, Held()`holders, Held()`raw, Held()`deletions
      modifies r.Held()`holders, r.Held()`raw
      ensures a.Valid() && In(a) && r.In(a) && a.ptrs == old(a.ptrs)
      ensures ptr == old(r.ptr) && (r != this ==> r.ptr == null)
      ensures ptr != null ==> ptr.raw == old(r.ptr.raw) && ptr.holders == old(r.ptr.holders) - {r} + {this}
      ensures old(ptr) != null ==> old(ptr).raw == old(ptr.raw)
      ensures old(ptr) != null && old(ptr) != ptr ==> old(ptr).holders == old(ptr.holders) - {this}
    {
      hide Counted<T>.Balanced;
      var temp := new ScopedRefPtr<T>.Move(a, r);
      temp.Swap(a, this);
      temp.Destroy(a);
      assert a.ptrs == old(a.ptrs);
    }
  }

  ghost function Target<T>(p: Counted?<T>): set<Counted<T>> {
    if p == null then {} else {p}
  }
}
