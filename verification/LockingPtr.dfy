/**
 `locking_ptr`: pointers to a backend that keep its mutex locked while any of them lives. One
 thread uses the pointers; the mutex may be taken by others while this thread does not hold it.
 */
module LockingPtr {
  import opened Records

  type PtrId = nat
  type LockId = nat

  // unsigned int
  const COUNTERS: nat := 0x1_0000_0000

  datatype Ptr = Null | Ref(element: nat, lock: LockId)

  // The live pointers that refer to a lock.
  function Users(ptrs: map<PtrId, Ptr>, l: LockId): set<PtrId> {
    set p | p in ptrs && ptrs[p].Ref? && ptrs[p].lock == l
  }

  lemma UsersAfter(ptrs: map<PtrId, Ptr>, p: PtrId, v: Ptr, l: LockId)
    ensures Users(ptrs[p := v], l) == (if v.Ref? && v.lock == l then Users(ptrs, l) + {p} else Users(ptrs, l) - {p})
    ensures |Users(ptrs[p := v], l)| ==
      |Users(ptrs, l)| - (if p in Users(ptrs, l) then 1 else 0) + (if v.Ref? && v.lock == l then 1 else 0)
  {
    UsersSet(ptrs, p, v, l);
    var on := v.Ref? && v.lock == l;
    ToggleSize(Users(ptrs, l), p, on);
  }

  lemma UsersSet(ptrs: map<PtrId, Ptr>, p: PtrId, v: Ptr, l: LockId)
    ensures Users(ptrs[p := v], l) == (if v.Ref? && v.lock == l then Users(ptrs, l) + {p} else Users(ptrs, l) - {p})
  {
  }

  lemma UsersWithout(ptrs: map<PtrId, Ptr>, p: PtrId, l: LockId)
    ensures Users(ptrs - {p}, l) == Users(ptrs, l) - {p}
  {
  }

  lemma UsersBound(ptrs: map<PtrId, Ptr>, l: LockId)
    ensures |Users(ptrs, l)| <= |ptrs|
  {
    SubsetSize(Users(ptrs, l), ptrs.Keys);
  }

  lemma {:induction false} SubsetSize(a: set<PtrId>, b: set<PtrId>)
    requires a <= b
    ensures |a| <= |b|
  {
    if a == {} {
    } else {
      var x :| x in a;
      SubsetSize(a - {x}, b - {x});
    }
  }

  // Every lock's counter is the number of live pointers to it; its mutex is held exactly while
  // there are any.
  ghost predicate Counted(ptrs: map<PtrId, Ptr>, refCounter: map<LockId, nat>, held: map<LockId, bool>) {
    && refCounter.Keys == held.Keys
    && (forall p :: p in ptrs && ptrs[p].Ref? ==> ptrs[p].lock in refCounter)
    && (forall l :: l in refCounter ==> CountedLock(ptrs, l, refCounter[l], held[l]))
  }

  ghost predicate CountedLock(ptrs: map<PtrId, Ptr>, l: LockId, count: nat, held: bool) {
    count == |Users(ptrs, l)| && (held <==> Users(ptrs, l) != {})
  }

  lemma AddCounts(ptrs: map<PtrId, Ptr>, refCounter: map<LockId, nat>, held: map<LockId, bool>, p: PtrId, v: Ptr)
    requires Counted(ptrs, refCounter, held) && p !in ptrs && (v.Ref? ==> v.lock in refCounter)
    ensures v.Null? ==> Counted(ptrs[p := v], refCounter, held)
    ensures v.Ref? ==>
              Counted(ptrs[p := v], refCounter[v.lock := refCounter[v.lock] + 1], held[v.lock := true])
  {
    forall l | l in refCounter
      ensures if v.Ref? && v.lock == l then CountedLock(ptrs[p := v], l, refCounter[l] + 1, true)
              else CountedLock(ptrs[p := v], l, refCounter[l], held[l])
    {
      UsersAfter(ptrs, p, v, l);
    }
  }

  lemma DropCounts(ptrs: map<PtrId, Ptr>, refCounter: map<LockId, nat>, held: map<LockId, bool>, p: PtrId)
    requires Counted(ptrs, refCounter, held) && p in ptrs
    ensures ptrs[p].Null? ==> Counted(ptrs - {p}, refCounter, held)
    ensures ptrs[p].Ref? ==> var l := ptrs[p].lock;
      refCounter[l] > 0 && Counted(ptrs - {p}, refCounter[l := refCounter[l] - 1], held[l := refCounter[l] > 1])
  {
    var rest := ptrs - {p};
    forall l | l in refCounter
      ensures if ptrs[p].Ref? && ptrs[p].lock == l
              then refCounter[l] > 0 && CountedLock(rest, l, refCounter[l] - 1, refCounter[l] > 1)
              else CountedLock(rest, l, refCounter[l], held[l])
    {
      DropLock(ptrs, l, refCounter[l], held[l], p);
    }
  }

  lemma DropLock(ptrs: map<PtrId, Ptr>, l: LockId, count: nat, held: bool, p: PtrId)
    requires CountedLock(ptrs, l, count, held) && p in ptrs
    ensures if ptrs[p].Ref? && ptrs[p].lock == l
            then count > 0 && CountedLock(ptrs - {p}, l, count - 1, count > 1)
            else CountedLock(ptrs - {p}, l, count, held)
  {
    UsersWithout(ptrs, p, l);
    var before, after := Users(ptrs, l), Users(ptrs - {p}, l);
    if p in before {
      assert |after| == |before| - 1;
    } else {
      assert after == before;
    }
  }

  lemma SwapCounts(ptrs: map<PtrId, Ptr>, refCounter: map<LockId, nat>, held: map<LockId, bool>, p: PtrId, q: PtrId)
    requires Counted(ptrs, refCounter, held) && p in ptrs && q in ptrs
    ensures Counted(ptrs[p := ptrs[q]][q := ptrs[p]], refCounter, held)
  {
    forall l | l in refCounter
      ensures CountedLock(ptrs[p := ptrs[q]][q := ptrs[p]], l, refCounter[l], held[l])
    {
      SwapLock(ptrs, l, p, q);
      NonEmpty(Users(ptrs, l), Users(ptrs[p := ptrs[q]][q := ptrs[p]], l));
    }
  }

  lemma SwapLock(ptrs: map<PtrId, Ptr>, l: LockId, p: PtrId, q: PtrId)
    requires p in ptrs && q in ptrs
    ensures |Users(ptrs[p := ptrs[q]][q := ptrs[p]], l)| == |Users(ptrs, l)|
  {
    var a, b := ptrs[p], ptrs[q];
    UsersAfter(ptrs, p, b, l);
    UsersAfter(ptrs[p := b], q, a, l);
    assert p in Users(ptrs, l) <==> a.Ref? && a.lock == l;
    assert p != q ==> (q in Users(ptrs[p := b], l) <==> b.Ref? && b.lock == l);
  }

  lemma NonEmpty(a: set<PtrId>, b: set<PtrId>)
    requires |a| == |b|
    ensures a != {} <==> b != {}
  {
  }

  // As long as there are fewer pointers than counter values, the counter does not wrap around.
  lemma CounterFits(ptrs: map<PtrId, Ptr>, refCounter: map<LockId, nat>, held: map<LockId, bool>, l: LockId)
    requires Counted(ptrs, refCounter, held) && l in refCounter && |ptrs| + 1 < COUNTERS
    ensures (refCounter[l] + 1) % COUNTERS == refCounter[l] + 1
  {
    UsersBound(ptrs, l);
    assert CountedLock(ptrs, l, refCounter[l], held[l]);
  }

  lemma HeldWhileCounted(ptrs: map<PtrId, Ptr>, refCounter: map<LockId, nat>, held: map<LockId, bool>, l: LockId)
    requires Counted(ptrs, refCounter, held) && l in refCounter
    ensures refCounter[l] > 0 <==> held[l]
  {
    assert CountedLock(ptrs, l, refCounter[l], held[l]);
  }

  // Copying `that` to a temporary, swapping it with `p` and dropping it leaves `p` a copy of `that`.
  lemma CopyAndSwap(ptrs: map<PtrId, Ptr>, p: PtrId, that: PtrId, temporary: PtrId)
    requires p in ptrs && that in ptrs && temporary !in ptrs
    ensures var copied := ptrs[temporary := ptrs[that]];
      copied[p := copied[temporary]][temporary := copied[p]] - {temporary} == ptrs[p := ptrs[that]]
  {
  }

  class Pointers {
    var ptrs: map<PtrId, Ptr>
    // m_RefCounter and the mutex of each lock object.
    var refCounter: map<LockId, nat>
    var held: map<LockId, bool>

    ghost predicate Valid()
      reads this
    {
      |ptrs| < COUNTERS && Counted(ptrs, refCounter, held)
    }

    constructor (locks: set<LockId>)
      ensures Valid() && ptrs == map[] && refCounter.Keys == locks
    {
      ptrs := map[];
      refCounter := map l | l in locks :: 0;
      held := map l | l in locks :: false;
      new;
      assert forall l :: Users(ptrs, l) == {};
    }

    // The first pointer to a lock locks its mutex.
    method Construct(p: PtrId, element: nat, l: LockId)
      requires Valid() && p !in ptrs && l in refCounter && |ptrs| + 1 < COUNTERS
      modifies this
      ensures Valid() && ptrs == old(ptrs)[p := Ref(element, l)] && refCounter.Keys == old(refCounter.Keys)
    {
      CounterFits(ptrs, refCounter, held, l);
      HeldWhileCounted(ptrs, refCounter, held, l);
      AddCounts(ptrs, refCounter, held, p, Ref(element, l));
      ghost var count := refCounter[l];
      Lock(l);
      refCounter := refCounter[l := (refCounter[l] + 1) % COUNTERS];
      assert refCounter == old(refCounter)[l := count + 1];
      ptrs := ptrs[p := Ref(element, l)];
    }

    // Locks the mutex unless this thread holds it already.
    method Lock(l: LockId)
      requires l in refCounter && refCounter.Keys == held.Keys && (refCounter[l] > 0 ==> held[l])
      modifies this`held
      ensures held == old(held)[l := true]
    {
      if refCounter[l] == 0 {
        held := held[l := true];
      }
      assert held == old(held)[l := true];
    }

    // `free`: whether the mutex can be locked now. The pointer is null if it cannot and this thread
    // has no pointer to the lock yet.
    method TryConstruct(p: PtrId, element: nat, l: LockId, free: bool)
      requires Valid() && p !in ptrs && l in refCounter && |ptrs| + 1 < COUNTERS
      modifies this
      ensures Valid() && refCounter.Keys == old(refCounter.Keys)
      ensures ptrs == old(ptrs)[p := if old(Users(ptrs, l)) != {} || free then Ref(element, l) else Null]
    {
      assert CountedLock(ptrs, l, refCounter[l], held[l]);
      if refCounter[l] > 0 || free {
        Construct(p, element, l);
      } else {
        AddCounts(ptrs, refCounter, held, p, Null);
        ptrs := ptrs[p := Null];
      }
    }

    method Copy(p: PtrId, that: PtrId)
      requires Valid() && p !in ptrs && that in ptrs && |ptrs| + 1 < COUNTERS
      modifies this
      ensures Valid() && ptrs == old(ptrs)[p := old(ptrs)[that]] && refCounter.Keys == old(refCounter.Keys)
    {
      var v := ptrs[that];
      AddCounts(ptrs, refCounter, held, p, v);
      if v.Ref? {
        CounterFits(ptrs, refCounter, held, v.lock);
        HeldWhileCounted(ptrs, refCounter, held, v.lock);
        assert that in Users(ptrs, v.lock) && held[v.lock := true] == held;
        refCounter := refCounter[v.lock := (refCounter[v.lock] + 1) % COUNTERS];
      }
      ptrs := ptrs[p := v];
    }

    method Destroy(p: PtrId)
      requires Valid() && p in ptrs
      modifies this
      ensures Valid() && ptrs == old(ptrs) - {p} && refCounter.Keys == old(refCounter.Keys)
    {
      var v := ptrs[p];
      DropCounts(ptrs, refCounter, held, p);
      SubsetSize(ptrs.Keys - {p}, ptrs.Keys);
      if v.Ref? {
        HeldWhileCounted(ptrs, refCounter, held, v.lock);
        refCounter := refCounter[v.lock := refCounter[v.lock] - 1];
        Unlock(v.lock);
      }
      ptrs := ptrs - {p};
      assert ptrs.Keys == old(ptrs).Keys - {p};
    }

    // Unlocks the mutex once no pointer is left.
    method Unlock(l: LockId)
      requires l in refCounter && refCounter.Keys == held.Keys && held[l]
      modifies this`held
      ensures held == old(held)[l := refCounter[l] > 0]
    {
      if refCounter[l] == 0 {
        held := held[l := false];
      }
      assert held == old(held)[l := refCounter[l] > 0];
    }

    method Swap(p: PtrId, q: PtrId)
      requires Valid() && p in ptrs && q in ptrs
      modifies this`ptrs
      ensures Valid() && ptrs == old(ptrs)[p := old(ptrs)[q]][q := old(ptrs)[p]]
    {
      SwapCounts(ptrs, refCounter, held, p, q);
      var a, b := ptrs[p], ptrs[q];
      ptrs := ptrs[p := b];
      ptrs := ptrs[q := a];
      assert ptrs.Keys == old(ptrs).Keys;
    }

    // operator= takes its argument by value: a copy, a swap, and the end of the copy.
    method Assign(p: PtrId, that: PtrId, temporary: PtrId)
      requires Valid() && p in ptrs && that in ptrs && temporary !in ptrs && |ptrs| + 1 < COUNTERS
      modifies this
      ensures Valid() && ptrs == old(ptrs)[p := old(ptrs)[that]] && refCounter.Keys == old(refCounter.Keys)
    {
      CopyAndSwap(ptrs, p, that, temporary);
      Copy(temporary, that);
      assert |ptrs| == |old(ptrs)| + 1;
      Swap(p, temporary);
      Destroy(temporary);
    }
  }
}
