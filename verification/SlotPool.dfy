/** The slot pool: a free list over optional slots, and the handles that name
    occupied slots.  Its state machine and what every run of it keeps. */
module SlotPool {
  import opened DistinctIndices
  import opened Options

  datatype PoolState<T> = PoolState(storage: seq<Option<T>>, free: seq<nat>, inUse: nat)

  function Counting(n: nat): (r: seq<nat>)
    ensures |r| == n && forall i :: 0 <= i < n ==> r[i] == i
  {
    seq(n, i => i)
  }

  function WithCapacity<T>(capacity: nat): PoolState<T> {
    PoolState(seq(capacity, _ => None), Counting(capacity), 0)
  }

  /** The new state and the index of the slot taken: the last free one, or a
      new one at the end. */
  function Alloc<T>(p: PoolState<T>, value: T): (PoolState<T>, nat)
    requires forall k :: 0 <= k < |p.free| ==> p.free[k] < |p.storage|
  {
    if p.free == [] then
      (p.(storage := p.storage + [Some(value)], inUse := p.inUse + 1), |p.storage|)
    else
      var i := p.free[|p.free| - 1];
      (PoolState(p.storage[i := Some(value)], p.free[..|p.free| - 1], p.inUse + 1), i)
  }

  function PutBack<T>(p: PoolState<T>, i: nat): PoolState<T>
    requires i < |p.storage| && (p.storage[i].Some? ==> p.inUse > 0)
  {
    if p.storage[i].Some? then PoolState(p.storage[i := None], p.free + [i], p.inUse - 1) else p
  }

  function Put<T>(p: PoolState<T>, i: nat, value: T): PoolState<T>
    requires i < |p.storage|
  {
    p.(storage := p.storage[i := Some(value)])
  }

  // ----- the pool invariant -----

  /** The free list has no duplicates and lists exactly the empty slots; every
      slot is in use or free. */
  ghost predicate Ok<T>(p: PoolState<T>) {
    && (forall k :: 0 <= k < |p.free| ==> p.free[k] < |p.storage| && p.storage[p.free[k]].None?)
    && Distinct(p.free)
    && (forall i :: 0 <= i < |p.storage| && p.storage[i].None? ==> i in p.free)
    && p.inUse + |p.free| == |p.storage|
  }

  lemma WithCapacityIsOk<T>(capacity: nat)
    ensures Ok(WithCapacity<T>(capacity))
  {
    var p := WithCapacity<T>(capacity);
    forall i | 0 <= i < capacity ensures i in p.free {
      assert p.free[i] == i;
    }
  }

  lemma AllocKeepsOk<T>(p: PoolState<T>, value: T)
    requires Ok(p)
    ensures Ok(Alloc(p, value).0)
    ensures var (p', i) := Alloc(p, value);
            && (i < |p.storage| ==> p.storage[i].None?)
            && i < |p'.storage| && p'.storage[i] == Some(value)
            && |p.storage| <= |p'.storage|
            && forall j :: 0 <= j < |p.storage| && j != i ==> p'.storage[j] == p.storage[j]
  {
    var (p', taken) := Alloc(p, value);
    if p.free != [] {
      var last := |p.free| - 1;
      forall i | 0 <= i < |p'.storage| && p'.storage[i].None? ensures i in p'.free {
        var k :| 0 <= k < |p.free| && p.free[k] == i;
        assert p'.free[k] == i;
      }
    }
  }

  /** An occupied slot is not on the free list, so it is counted as in use. */
  lemma OccupiedCounts<T>(p: PoolState<T>, i: nat)
    requires Ok(p) && i < |p.storage| && p.storage[i].Some?
    ensures p.inUse > 0
  {
    FewerThanBelow(p.free, |p.storage|, i);
  }

  lemma PutBackKeepsOk<T>(p: PoolState<T>, i: nat)
    requires Ok(p) && i < |p.storage|
    ensures p.storage[i].Some? ==> p.inUse > 0
    ensures Ok(PutBack(p, i))
  {
    if p.storage[i].Some? {
      OccupiedCounts(p, i);
      var p' := PutBack(p, i);
      forall j | 0 <= j < |p'.storage| && p'.storage[j].None? ensures j in p'.free {
        if j == i {
          assert p'.free[|p.free|] == i;
        } else {
          var k :| 0 <= k < |p.free| && p.free[k] == j;
          assert p'.free[k] == j;
        }
      }
    }
  }

  lemma PutKeepsOk<T>(p: PoolState<T>, i: nat, value: T)
    requires Ok(p) && i < |p.storage| && p.storage[i].Some?
    ensures Ok(Put(p, i, value))
  {
  }

  /** A slot given back is the next one handed out, and the pool is otherwise
      as if the value had been replaced in place. */
  lemma ReusesLastFreed<T>(p: PoolState<T>, i: nat, value: T)
    requires Ok(p) && i < |p.storage| && p.storage[i].Some? && p.inUse > 0
    requires Ok(PutBack(p, i))
    ensures Alloc(PutBack(p, i), value) == (Put(p, i, value), i)
  {
    assert p.storage[i := None][i := Some(value)] == p.storage[i := Some(value)];
    assert (p.free + [i])[..|p.free|] == p.free;
  }

  /** The pool after allocating `values` one after the other, and their slots. */
  ghost function AllocMany<T(!new)>(p: PoolState<T>, values: seq<T>): (r: (PoolState<T>, seq<nat>))
    requires Ok(p)
    ensures Ok(r.0) && |r.1| == |values|
    decreases |values|
  {
    if values == [] then (p, [])
    else
      var n := |values| - 1;
      var (p1, slots) := AllocMany(p, values[..n]);
      AllocKeepsOk(p1, values[n]);
      var (p2, i) := Alloc(p1, values[n]);
      (p2, slots + [i])
  }

  /** The slot of the `k`th allocation from a new pool: from the last slot to the
      first, and then a new one at the end. */
  function FreshSlot(capacity: nat, k: nat): nat {
    if k < capacity then capacity - 1 - k else k
  }

  /** `values` are in those slots, and the others are free. */
  ghost predicate FilledFresh<T>(p: PoolState<T>, capacity: nat, values: seq<T>) {
    && p.free == Counting(if |values| < capacity then capacity - |values| else 0)
    && |p.storage| == (if |values| < capacity then capacity else |values|)
    && forall k :: 0 <= k < |values| ==> HoldsFresh(p, capacity, k, values[k])
  }

  predicate HoldsFresh<T(==)>(p: PoolState<T>, capacity: nat, k: nat, value: T) {
    FreshSlot(capacity, k) < |p.storage| && p.storage[FreshSlot(capacity, k)] == Some(value)
  }

  lemma FillsNext<T>(p: PoolState<T>, capacity: nat, values: seq<T>, value: T)
    requires Ok(p) && FilledFresh(p, capacity, values)
    ensures Alloc(p, value).1 == FreshSlot(capacity, |values|)
    ensures FilledFresh(Alloc(p, value).0, capacity, values + [value])
  {
    var (p', i) := Alloc(p, value);
    forall k | 0 <= k < |values| + 1 ensures HoldsFresh(p', capacity, k, (values + [value])[k]) {
      if k < |values| {
        assert HoldsFresh(p, capacity, k, values[k]);
      }
    }
  }

  /** The pool and the slots after `values` have been allocated from a new pool. */
  ghost predicate FreshRun<T>(r: (PoolState<T>, seq<nat>), capacity: nat, values: seq<T>) {
    && FilledFresh(r.0, capacity, values)
    && |r.1| == |values| && forall k :: 0 <= k < |values| ==> r.1[k] == FreshSlot(capacity, k)
  }

  lemma FreshRunNext<T>(r: (PoolState<T>, seq<nat>), capacity: nat, values: seq<T>, value: T)
    requires Ok(r.0) && FreshRun(r, capacity, values)
    ensures FreshRun((Alloc(r.0, value).0, r.1 + [Alloc(r.0, value).1]), capacity, values + [value])
  {
    FillsNext(r.0, capacity, values, value);
  }

  lemma AllocManyNext<T(!new)>(p: PoolState<T>, values: seq<T>, value: T)
    requires Ok(p)
    ensures var r := AllocMany(p, values);
            AllocMany(p, values + [value]) == (Alloc(r.0, value).0, r.1 + [Alloc(r.0, value).1])
  {
    assert (values + [value])[..|values|] == values;
  }

  lemma FreshRunAt<T(!new)>(p: PoolState<T>, capacity: nat, values: seq<T>, value: T)
    requires Ok(p) && FreshRun(AllocMany(p, values), capacity, values)
    ensures FreshRun(AllocMany(p, values + [value]), capacity, values + [value])
  {
    FreshRunNext(AllocMany(p, values), capacity, values, value);
    AllocManyNext(p, values, value);
  }

  lemma {:induction false} FreshRuns<T(!new)>(p: PoolState<T>, capacity: nat, values: seq<T>)
    requires Ok(p) && FilledFresh(p, capacity, [])
    ensures FreshRun(AllocMany(p, values), capacity, values)
    decreases |values|
  {
    if values != [] {
      var n := |values| - 1;
      FreshRuns(p, capacity, values[..n]);
      FreshRunAt(p, capacity, values[..n], values[n]);
      assert values[..n] + [values[n]] == values;
    }
  }

  /** A new pool hands out its slots from the last to the first, and then adds
      one at a time at the end; each holds the value put into it. */
  lemma FreshPoolSlots<T(!new)>(capacity: nat, values: seq<T>)
    ensures Ok(WithCapacity<T>(capacity)) && FreshRun(AllocMany(WithCapacity<T>(capacity), values), capacity, values)
  {
    WithCapacityIsOk<T>(capacity);
    FreshRuns(WithCapacity<T>(capacity), capacity, values);
  }

  /** Giving a new value straight back undoes the allocation, except that a
      slot added for it stays as the only free one. */
  lemma PutBackUndoesAlloc<T>(p: PoolState<T>, value: T)
    requires Ok(p)
    ensures var (p', i) := Alloc(p, value);
            PutBack(p', i) == if p.free != [] then p else PoolState(p.storage + [None], [|p.storage|], p.inUse)
  {
    var (p', i) := Alloc(p, value);
    if p.free != [] {
      assert p.storage[i].None?;
      assert p.storage[i := Some(value)][i := None] == p.storage;
      assert p.free[..|p.free| - 1] + [i] == p.free;
    } else {
      assert (p.storage + [Some(value)])[i := None] == p.storage + [None];
    }
  }

  // ----- runs with handles -----

  /** A live handle: its slot, and the value last written through it. */
  datatype Handle<T> = Handle(index: nat, value: T)

  /** `live` maps handle names to handles; `peak` is the most that were live at once. */
  datatype Run<T> = Run(pool: PoolState<T>, live: map<nat, Handle<T>>, initial: nat, peak: nat)

  datatype Action<T> = New(name: nat, value: T) | Write(name: nat, value: T) | Drop(name: nat)

  /** A handle is named once, and used or dropped only while it is live. */
  predicate Allowed<T>(r: Run<T>, a: Action<T>) {
    if a.New? then a.name !in r.live else a.name in r.live
  }

  ghost predicate Inv<T>(r: Run<T>) {
    && Ok(r.pool)
    && Bound(r.pool.storage, r.live)
    && |r.live| == r.pool.inUse <= r.peak
    && |r.pool.storage| == (if r.initial < r.peak then r.peak else r.initial)
  }

  /** Handles and occupied slots correspond one to one, and what `deref` reads
      through a handle is the value last written through it. */
  ghost predicate Bound<T>(storage: seq<Option<T>>, live: map<nat, Handle<T>>) {
    && (forall h :: h in live ==> Reads(storage, live[h]))
    && (forall g, h :: g in live && h in live && g != h ==> live[g].index != live[h].index)
    && (forall i :: 0 <= i < |storage| && storage[i].Some? ==> Owned(live, i))
  }

  ghost predicate Reads<T>(storage: seq<Option<T>>, h: Handle<T>) {
    h.index < |storage| && storage[h.index] == Some(h.value)
  }

  ghost predicate Owned<T>(live: map<nat, Handle<T>>, i: nat) {
    exists h :: h in live && live[h].index == i
  }

  function Step<T>(r: Run<T>, a: Action<T>): Run<T>
    requires Allowed(r, a)
    requires forall k :: 0 <= k < |r.pool.free| ==> r.pool.free[k] < |r.pool.storage|
    requires !a.New? ==> r.live[a.name].index < |r.pool.storage| && r.pool.inUse > 0
  {
    match a
    case New(name, value) =>
      var (p, i) := Alloc(r.pool, value);
      Run(p, r.live[name := Handle(i, value)], r.initial, if r.peak < p.inUse then p.inUse else r.peak)
    case Write(name, value) =>
      var i := r.live[name].index;
      r.(pool := Put(r.pool, i, value), live := r.live[name := Handle(i, value)])
    case Drop(name) =>
      r.(pool := PutBack(r.pool, r.live[name].index), live := r.live - {name})
  }

  ghost predicate Steppable<T>(r: Run<T>, a: Action<T>) {
    && Allowed(r, a)
    && (forall k :: 0 <= k < |r.pool.free| ==> r.pool.free[k] < |r.pool.storage|)
    && (!a.New? ==> r.live[a.name].index < |r.pool.storage| && r.pool.inUse > 0)
  }

  lemma InvSteppable<T>(r: Run<T>, a: Action<T>)
    requires Inv(r) && Allowed(r, a)
    ensures Steppable(r, a)
  {
    if !a.New? {
      assert Reads(r.pool.storage, r.live[a.name]);
      OccupiedCounts(r.pool, r.live[a.name].index);
    }
  }

  /** Storing a value in slot `i` and naming it keeps the correspondence. */
  lemma BindSlot<T>(storage: seq<Option<T>>, live: map<nat, Handle<T>>, storage': seq<Option<T>>,
                    name: nat, i: nat, value: T)
    requires Bound(storage, live) && i < |storage'| && |storage| <= |storage'| && storage'[i] == Some(value)
    requires forall j :: 0 <= j < |storage'| && j != i ==> j < |storage| && storage'[j] == storage[j]
    requires forall h :: h in live ==> (live[h].index == i <==> h == name)
    requires name !in live ==> i >= |storage| || storage[i].None?
    ensures Bound(storage', live[name := Handle(i, value)])
  {
    var live' := live[name := Handle(i, value)];
    forall h | h in live' ensures Reads(storage', live'[h]) {
      if h != name {
        assert Reads(storage, live[h]);
      }
    }
    forall j | 0 <= j < |storage'| && storage'[j].Some? ensures Owned(live', j) {
      if j == i {
        assert live'[name].index == j;
      } else {
        var h :| h in live && live[h].index == j;
        assert live'[h].index == j;
      }
    }
  }

  lemma UnbindSlot<T>(storage: seq<Option<T>>, live: map<nat, Handle<T>>, name: nat)
    requires Bound(storage, live) && name in live && live[name].index < |storage|
    ensures Bound(storage[live[name].index := None], live - {name})
  {
    var i := live[name].index;
    var storage', live' := storage[i := None], live - {name};
    forall h | h in live' ensures Reads(storage', live'[h]) {
      assert Reads(storage, live[h]);
    }
    forall j | 0 <= j < |storage'| && storage'[j].Some? ensures Owned(live', j) {
      var h :| h in live && live[h].index == j;
      assert live'[h].index == j;
    }
  }

  lemma NewKeepsInv<T>(r: Run<T>, name: nat, value: T)
    requires Inv(r) && name !in r.live
    ensures Inv(Step(r, New(name, value)))
  {
    AllocKeepsOk(r.pool, value);
    var (p, i) := Alloc(r.pool, value);
    forall h | h in r.live ensures r.live[h].index != i {
      assert Reads(r.pool.storage, r.live[h]);
    }
    BindSlot(r.pool.storage, r.live, p.storage, name, i, value);
  }

  lemma WriteKeepsInv<T>(r: Run<T>, name: nat, value: T)
    requires Inv(r) && name in r.live && Steppable(r, Write(name, value))
    ensures Inv(Step(r, Write(name, value)))
  {
    var i := r.live[name].index;
    assert Reads(r.pool.storage, r.live[name]);
    BindSlot(r.pool.storage, r.live, Put(r.pool, i, value).storage, name, i, value);
    assert r.live[name := Handle(i, value)].Keys == r.live.Keys;
    PutKeepsOk(r.pool, i, value);
  }

  lemma DropKeepsInv<T>(r: Run<T>, name: nat)
    requires Inv(r) && name in r.live && Steppable(r, Drop(name))
    ensures Inv(Step(r, Drop(name)))
  {
    assert Reads(r.pool.storage, r.live[name]);
    PutBackKeepsOk(r.pool, r.live[name].index);
    UnbindSlot(r.pool.storage, r.live, name);
    assert r.live.Keys == (r.live - {name}).Keys + {name};
  }

  lemma StepKeepsInv<T>(r: Run<T>, a: Action<T>)
    requires Inv(r) && Allowed(r, a)
    ensures Steppable(r, a) && Inv(Step(r, a))
  {
    InvSteppable(r, a);
    match a
    case New(name, value) => NewKeepsInv(r, name, value);
    case Write(name, value) => WriteKeepsInv(r, name, value);
    case Drop(name) => DropKeepsInv(r, name);
  }

  /** A run of a pool made with some initial capacity. */
  ghost predicate IsRun<T>(trace: seq<Run<T>>, acts: seq<Action<T>>) {
    && |trace| == |acts| + 1
    && trace[0] == Run(WithCapacity(trace[0].initial), map[], trace[0].initial, 0)
    && forall i :: 0 <= i < |acts| ==> Allowed(trace[i], acts[i]) && Advances(trace[i], acts[i], trace[i + 1])
  }

  ghost predicate Advances<T>(r: Run<T>, a: Action<T>, r': Run<T>) {
    Steppable(r, a) ==> r' == Step(r, a)
  }

  lemma {:induction false} RunKeepsInv<T>(trace: seq<Run<T>>, acts: seq<Action<T>>, i: nat)
    requires IsRun(trace, acts) && i < |trace|
    ensures Inv(trace[i])
    ensures i > 0 ==> Steppable(trace[i - 1], acts[i - 1]) && trace[i] == Step(trace[i - 1], acts[i - 1])
  {
    if i == 0 {
      WithCapacityIsOk<T>(trace[0].initial);
    } else {
      RunKeepsInv(trace, acts, i - 1);
      assert Allowed(trace[i - 1], acts[i - 1]) && Advances(trace[i - 1], acts[i - 1], trace[i]);
      StepKeepsInv(trace[i - 1], acts[i - 1]);
    }
  }

  /** In every run: the free list is duplicate-free and exactly the empty slots,
      in use plus free is the capacity, live handles have slots of their own, and
      the storage has grown to the peak number of handles and no further. */
  lemma EveryRunIsSound<T>(trace: seq<Run<T>>, acts: seq<Action<T>>, i: nat)
    requires IsRun(trace, acts) && i < |trace|
    ensures var p := trace[i].pool;
            && (forall k, m :: 0 <= k < m < |p.free| ==> p.free[k] != p.free[m])
            && (forall j :: j in p.free <==> 0 <= j < |p.storage| && p.storage[j].None?)
            && |trace[i].live| + |p.free| == p.inUse + |p.free| == |p.storage|
    ensures forall g, h :: g in trace[i].live && h in trace[i].live && g != h ==>
              trace[i].live[g].index != trace[i].live[h].index
    ensures |trace[i].pool.storage| == if trace[i].initial < trace[i].peak then trace[i].peak else trace[i].initial
  {
    RunKeepsInv(trace, acts, i);
  }

  lemma StepLeavesOthers<T>(r: Run<T>, a: Action<T>, name: nat)
    requires Steppable(r, a) && name in r.live && a.name != name
    ensures name in Step(r, a).live && Step(r, a).live[name] == r.live[name]
  {
  }

  /** Whatever is done through other handles, a handle keeps its slot and reads
      the value it read before. */
  lemma {:induction false} OthersLeaveItAlone<T>(trace: seq<Run<T>>, acts: seq<Action<T>>, i: nat, j: nat, name: nat)
    requires IsRun(trace, acts) && i <= j < |trace| && name in trace[i].live
    requires forall k :: i <= k < j ==> acts[k].name != name
    ensures name in trace[j].live && trace[j].live[name] == trace[i].live[name]
    ensures Reads(trace[i].pool.storage, trace[i].live[name])
    ensures Reads(trace[j].pool.storage, trace[i].live[name])
    decreases j
  {
    if i == j {
      RunKeepsInv(trace, acts, i);
    } else {
      OthersLeaveItAlone(trace, acts, i, j - 1, name);
      RunKeepsInv(trace, acts, j);
      StepLeavesOthers(trace[j - 1], acts[j - 1], name);
    }
  }
}
