/** The pool as an object: storage, free list and counter updated in place,
    proved against the functions of SlotPool. */
module SlotPoolClass {
  import opened SlotPool
  import opened Options

  datatype PoolStats = PoolStats(capacity: nat, inUse: nat, free: nat)

  class Pool<T> {
    var storage: seq<Option<T>>
    var free: seq<nat>
    var inUse: nat

    ghost function View(): PoolState<T>
      reads this
    {
      PoolState(storage, free, inUse)
    }

    ghost predicate Valid()
      reads this
    {
      Ok(View())
    }

    constructor (capacity: nat)
      ensures Valid() && View() == WithCapacity(capacity)
    {
      storage := seq(capacity, _ => None);
      free := [];
      inUse := 0;
      new;
      for i := 0 to capacity
        invariant free == Counting(i) && storage == seq(capacity, _ => None) && inUse == 0
      {
        free := free + [i];
      }
      WithCapacityIsOk<T>(capacity);
    }

    method AllocSlot(value: T) returns (index: nat)
      requires Valid()
      modifies this
      ensures Valid() && (View(), index) == Alloc(old(View()), value)
      ensures index < |storage| && storage[index] == Some(value)
    {
      AllocKeepsOk(View(), value);
      if free != [] {
        index := free[|free| - 1];
        free := free[..|free| - 1];
      } else {
        index := |storage|;
        storage := storage + [None];
        assert storage[index := Some(value)] == old(storage) + [Some(value)];
      }
      storage := storage[index := Some(value)];
      inUse := inUse + 1;
    }

    /** What dropping a handle calls. */
    method PutBackSlot(index: nat)
      requires Valid() && index < |storage|
      modifies this
      ensures Valid() && index < |old(storage)| && (old(storage)[index].Some? ==> old(inUse) > 0)
      ensures View() == PutBack(old(View()), index)
    {
      PutBackKeepsOk(View(), index);
      if storage[index].Some? {
        storage := storage[index := None];
        inUse := inUse - 1;
        free := free + [index];
      }
    }

    /** `deref`: the value, or `None` for the panic on an empty slot. */
    method Read(index: nat) returns (value: Option<T>)
      requires index < |storage|
      ensures value == storage[index]
    {
      value := storage[index];
    }

    /** Assignment through `deref_mut`, for an occupied slot. */
    method WriteSlot(index: nat, value: T)
      requires Valid() && index < |storage| && storage[index].Some?
      modifies this
      ensures Valid() && View() == Put(old(View()), index, value)
    {
      PutKeepsOk(View(), index, value);
      storage := storage[index := Some(value)];
    }

    method Stats() returns (s: PoolStats)
      requires Valid()
      ensures s.capacity == |storage| && s.inUse == inUse && s.inUse + s.free == s.capacity
    {
      s := PoolStats(|storage|, inUse, |free|);
    }
  }
}
