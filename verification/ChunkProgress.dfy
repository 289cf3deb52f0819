/** `Chunk::allocate` gets somewhere: what each exchange returns, that a thread
    left alone returns, and that a thread is held up only by the progress of
    others. */
module ChunkProgress {
  import opened Alignment
  import opened ChunkCas
  import opened Options

  /** An aligned start at or above `used` at which the request fits. */
  predicate RoomAt(w: World, layout: Layout, m: nat)
    requires layout.align > 0
  {
    MultipleFrom(m, w.used, layout.align) && m + layout.size <= w.capacity
  }

  ghost predicate Room(w: World, layout: Layout)
    requires layout.align > 0
  {
    exists m: nat :: RoomAt(w, layout, m)
  }

  /** A load gives up exactly when there is no room, and otherwise only
      remembers what it has seen. */
  lemma LoadMeaning(w: World, t: Tid)
    requires Enabled(w, Load(t))
    ensures var (w', pc) := (Next(w, Load(t)), w.threads[t]);
            && w'.used == w.used
            && (Room(w, pc.layout) ==>
                  w' == w.(threads := w.threads[t := Loaded(pc.layout, w.used, pc.since)]))
            && (!Room(w, pc.layout) ==>
                  && w'.threads == w.threads[t := Idle]
                  && w'.calls == w.calls + [Return(t, pc.layout, pc.since, |w.history|, None)])
  {
    var layout := w.threads[t].layout;
    var start := AlignUp(w.used, layout.align);
    AlignUpLeastFrom(w.used, layout.align);
    if start + layout.size <= w.capacity {
      assert RoomAt(w, layout, start);
    }
    if m: nat :| RoomAt(w, layout, m) {
      assert MultipleFrom(m, w.used, layout.align);
    }
  }

  /** An exchange that does not fail spuriously wins exactly when the value seen
      still stands, and then the call returns the least aligned start; otherwise
      it goes round again and changes nothing else. */
  lemma ExchangeMeaning(w: World, t: Tid, spurious: bool)
    requires Inv(w) && Enabled(w, Cas(t, spurious))
    ensures var (w', pc) := (Next(w, Cas(t, spurious)), w.threads[t]);
            && (w.used == pc.seen && !spurious ==>
                  && w'.threads == w.threads[t := Idle]
                  && |w'.calls| == |w.calls| + 1
                  && var r := w'.calls[|w.calls|];
                     && r.t == t && r.layout == pc.layout && r.result.Some?
                     && LeastFrom(r.result.value, w.used, pc.layout.align)
                     && w'.used == r.result.value + pc.layout.size <= w.capacity)
            && (w.used != pc.seen || spurious ==>
                  w' == w.(threads := w.threads[t := Looping(pc.layout, pc.since)]))
  {
    assert PcOk(w, t);
    AlignUpLeastFrom(w.threads[t].seen, w.threads[t].layout.align);
  }

  /** A call of `t` that nobody interrupts and no spurious failure hits: with
      room it returns the least aligned start after one load and one exchange,
      and without it fails after one load. */
  lemma SoloCall(w: World, t: Tid, layout: Layout) returns (w1: World, w2: World, w3: World)
    requires Inv(w) && Enabled(w, Invoke(t, layout))
    ensures w1 == Next(w, Invoke(t, layout)) && Enabled(w1, Load(t)) && w2 == Next(w1, Load(t))
    ensures Room(w, layout) ==>
              && Enabled(w2, Cas(t, false)) && w3 == Next(w2, Cas(t, false))
              && w3.threads == w.threads && |w3.calls| == |w.calls| + 1
              && var r := w3.calls[|w.calls|];
                 && r.t == t && r.layout == layout && r.result.Some?
                 && LeastFrom(r.result.value, w.used, layout.align) && w3.used == r.result.value + layout.size
    ensures !Room(w, layout) ==>
              && w2.threads == w.threads && w2.used == w.used && |w2.calls| == |w.calls| + 1
              && var r := w2.calls[|w.calls|]; r.t == t && r.layout == layout && r.result.None?
  {
    w1 := Next(w, Invoke(t, layout));
    NextKeepsInv(w, Invoke(t, layout));
    SameRoom(w, w1, layout);
    w2 := Next(w1, Load(t));
    LoadMeaning(w1, t);
    w3 := w2;
    if Room(w, layout) {
      NextKeepsInv(w1, Load(t));
      ExchangeMeaning(w2, t, false);
      w3 := Next(w2, Cas(t, false));
    }
  }

  lemma SameRoom(w: World, w': World, layout: Layout)
    requires layout.align > 0 && w'.used == w.used && w'.capacity == w.capacity
    ensures Room(w, layout) <==> Room(w', layout)
  {
    if m: nat :| RoomAt(w, layout, m) {
      assert RoomAt(w', layout, m);
    }
    if m: nat :| RoomAt(w', layout, m) {
      assert RoomAt(w, layout, m);
    }
  }

  // ----- lock freedom -----

  predicate By(a: Action, t: Tid) { !a.Store? && a.t == t }

  /** Between two states with different `used`, some step changed it. */
  lemma {:induction false} SomeStepMoved(trace: seq<World>, i: nat, j: nat) returns (k: nat)
    requires i < j < |trace| && trace[i].used != trace[j].used
    ensures i <= k < j && trace[k].used != trace[k + 1].used
  {
    if trace[j - 1].used != trace[j].used {
      k := j - 1;
    } else {
      k := SomeStepMoved(trace, i, j - 1);
    }
  }

  lemma {:induction false} StaysLoaded(trace: seq<World>, acts: seq<Action>, i: nat, j: nat, t: Tid)
    requires IsRun(trace, acts) && i <= j <= |acts| && t in trace[i].threads
    requires forall k :: i <= k < j ==> !By(acts[k], t)
    ensures t in trace[j].threads && trace[j].threads[t] == trace[i].threads[t]
  {
    if i < j {
      StaysLoaded(trace, acts, i, j - 1, t);
    }
  }

  /** A thread that has loaded, and whose exchange then fails without a spurious
      failure, was held up by progress: in between, a call of another thread
      returned a block, or a store moved the pointer. */
  lemma LostExchangeMeansProgress(trace: seq<World>, acts: seq<Action>, i: nat, j: nat, t: Tid) returns (k: nat)
    requires IsRun(trace, acts) && i < j < |acts|
    requires acts[i] == Load(t) && acts[j] == Cas(t, false) && forall k :: i < k < j ==> !By(acts[k], t)
    requires t in trace[j + 1].threads && trace[j + 1].threads[t].Looping?
    ensures i < k < j && trace[k].used != trace[k + 1].used
    ensures acts[k].Store? ||
              (acts[k].t != t && |trace[k + 1].calls| == |trace[k].calls| + 1
               && trace[k + 1].calls[|trace[k].calls|].result.Some?)
  {
    var w, w' := trace[i], trace[j];
    StaysLoaded(trace, acts, i + 1, j, t);
    assert trace[i + 1] == Next(w, Load(t)) && trace[j + 1] == Next(w', Cas(t, false));
    LoadMeaning(w, t);
    RunKeepsInv(trace, acts, j);
    ExchangeMeaning(w', t, false);
    k := SomeStepMoved(trace, i + 1, j);
    RunKeepsInv(trace, acts, k);
    MovingStep(trace[k], acts[k]);
  }

  lemma MovingStep(w: World, a: Action)
    requires Inv(w) && Enabled(w, a) && Next(w, a).used != w.used
    ensures a.Store? || (|Next(w, a).calls| == |w.calls| + 1 && Next(w, a).calls[|w.calls|].result.Some?)
  {
    if a.Cas? {
      ExchangeMeaning(w, a.t, a.spurious);
    }
  }
}
