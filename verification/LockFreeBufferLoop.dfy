/** The refill loop of the lock-free allocator has a bound. */
module LockFreeBufferLoop {
  import opened Alignment
  import opened LockFreeBuffer
  import opened LockFreeBufferSafety

  predicate InLoop(w: World, t: Tid) {
    t in w.threads && (w.threads[t].pc.Refilling? || w.threads[t].pc.Loaded?)
  }

  /** Iterations of the refill loop begun by `t`. */
  function Loads(acts: seq<Action>, t: Tid): nat {
    if acts == [] then 0
    else Loads(acts[..|acts| - 1], t) + if acts[|acts| - 1] == LoadOffset(t) then 1 else 0
  }

  lemma LoadsExtend(acts: seq<Action>, t: Tid, i: nat, j: nat)
    requires i < j <= |acts|
    ensures Loads(acts[i..j], t) == Loads(acts[i..j - 1], t) + if acts[j - 1] == LoadOffset(t) then 1 else 0
  {
    assert acts[i..j][..j - 1 - i] == acts[i..j - 1];
  }

  /** `fails` counts exactly the failed CASes: each iteration is one load. */
  lemma LoopStep(w: World, a: Action, w': World, t: Tid)
    requires Shaped(w) && Possible(w, a) && w' == Next(w, a) && InLoop(w, t) && InLoop(w', t)
    ensures Iterations(w', t) == Iterations(w, t) + if a == LoadOffset(t) then 1 else 0
  {
    if a.t != t {
      OthersUntouched(w, a, t);
    }
  }

  /** The iterations of its refill loop that `t` has begun, as its position says. */
  function Iterations(w: World, t: Tid): nat {
    if InLoop(w, t) then w.threads[t].pc.fails + (if w.threads[t].pc.Loaded? then 1 else 0) else 0
  }

  /** Until its buffer is reset, every lost CAS means that the shared offset
      has moved on by at least one minimal block. */
  predicate LoopOk(w: World, t: Tid) {
    && InLoop(w, t) && w.threads[t].pc.buf in w.bufs
    && var offset := w.bufs[w.threads[t].pc.buf].offset;
       match w.threads[t].pc
       case Refilling(_, _, fails) => SLAB_MIN_BLOCK * fails <= offset
       case Loaded(_, _, fails, current) =>
         SLAB_MIN_BLOCK * fails <= current && (offset == current || offset >= current + SLAB_MIN_BLOCK)
       case _ => true
  }

  /** The first store of a reset of `b`. */
  predicate Resets(a: Action, b: Bid) { a.StoreOffset? && a.b == b }

  lemma OffsetMoves(w: World, a: Action, b: Bid)
    requires Inv(w) && Possible(w, a) && b in w.bufs && !Resets(a, b)
    ensures var w' := Next(w, a);
            && b in w'.bufs
            && (w'.bufs[b].offset == w.bufs[b].offset || w'.bufs[b].offset >= w.bufs[b].offset + SLAB_MIN_BLOCK)
  {
    if a.Cas? {
      var pc := w.threads[a.t].pc;
      assert PcOk(w, a.t);
      AlignUpOfMultiple(pc.current, LOCKFREE_ALIGNMENT);
      BlockSizeBounds(pc.layout.size);
    }
  }

  lemma LoopOkStep(w: World, a: Action, t: Tid)
    requires Inv(w) && Possible(w, a) && LoopOk(w, t) && InLoop(Next(w, a), t) && !Resets(a, w.threads[t].pc.buf)
    ensures LoopOk(Next(w, a), t) && Next(w, a).threads[t].pc.buf == w.threads[t].pc.buf
  {
    OffsetMoves(w, a, w.threads[t].pc.buf);
    if a.t != t {
      OthersUntouched(w, a, t);
    }
  }

  /** Thread `t` is in the loop over buffer `b`, with its losses accounted for. */
  predicate Going(w: World, t: Tid, b: Bid) {
    LoopOk(w, t) && w.threads[t].pc.buf == b
  }

  /** One step keeps the account and counts a load of `t`. */
  predicate Turn(w: World, a: Action, w': World, t: Tid, b: Bid) {
    Going(w, t, b) ==> Going(w', t, b) && Iterations(w', t) == Iterations(w, t) + if a == LoadOffset(t) then 1 else 0
  }

  lemma NextTurns(w: World, a: Action, w': World, t: Tid, b: Bid)
    requires Inv(w) && Possible(w, a) && w' == Next(w, a) && InLoop(w', t) && !Resets(a, b)
    ensures Turn(w, a, w', t, b)
  {
    if Going(w, t, b) {
      LoopOkStep(w, a, t);
      LoopStep(w, a, w', t);
    }
  }

  lemma TurnAt(trace: seq<World>, acts: seq<Action>, t: Tid, b: Bid, k: nat)
    requires IsRun(trace, acts) && 0 < k < |trace| && InLoop(trace[k], t) && !Resets(acts[k - 1], b)
    ensures Turn(trace[k - 1], acts[k - 1], trace[k], t, b)
  {
    RunStep(trace, acts, k);
    RunKeepsInv(trace, acts, k - 1);
    NextTurns(trace[k - 1], acts[k - 1], trace[k], t, b);
  }

  /** What the positions of `t` count is what it has loaded. */
  lemma {:induction false} TurnsCount(trace: seq<World>, acts: seq<Action>, t: Tid, b: Bid, i: nat, j: nat)
    requires i <= j < |trace| <= |acts| + 1
    requires forall k :: i < k <= j ==> Turn(trace[k - 1], acts[k - 1], trace[k], t, b)
    requires Going(trace[i], t, b) && Iterations(trace[i], t) == 0
    ensures Going(trace[j], t, b) && Loads(acts[i..j], t) == Iterations(trace[j], t)
  {
    if i < j {
      TurnsCount(trace, acts, t, b, i, j - 1);
      LoadsExtend(acts, t, i, j);
    }
  }

  /** Between resets of its buffer the refill loop of a thread runs at most 17
      iterations, whatever the other threads do: after 16 loads a thread that is
      still looping leaves the loop on its next load. */
  lemma RefillLeavesWithin17(trace: seq<World>, acts: seq<Action>, t: Tid, i: nat, j: nat)
    requires IsRun(trace, acts) && i <= j < |trace|
    requires InLoop(trace[i], t) && trace[i].threads[t].pc.Refilling? && trace[i].threads[t].pc.fails == 0
    requires forall k :: i <= k <= j ==> InLoop(trace[k], t)
    requires forall k :: i <= k < j ==> !Resets(acts[k], trace[i].threads[t].pc.buf)
    ensures Loads(acts[i..j], t) <= 16
    ensures j < |acts| && acts[j] == LoadOffset(t) && Loads(acts[i..j], t) == 16 ==> !InLoop(trace[j + 1], t)
  {
    var b := trace[i].threads[t].pc.buf;
    forall k | i < k <= j ensures Turn(trace[k - 1], acts[k - 1], trace[k], t, b) {
      TurnAt(trace, acts, t, b, k);
    }
    StartsGoing(trace, acts, t, i);
    TurnsCount(trace, acts, t, b, i, j);
    LoopEnds(trace, acts, t, j);
  }

  lemma StartsGoing(trace: seq<World>, acts: seq<Action>, t: Tid, i: nat)
    requires IsRun(trace, acts) && i < |trace|
    requires InLoop(trace[i], t) && trace[i].threads[t].pc.Refilling? && trace[i].threads[t].pc.fails == 0
    ensures LoopOk(trace[i], t)
  {
    RunKeepsInv(trace, acts, i);
  }

  lemma LoopEnds(trace: seq<World>, acts: seq<Action>, t: Tid, j: nat)
    requires IsRun(trace, acts) && j < |trace| && LoopOk(trace[j], t)
    ensures Iterations(trace[j], t) <= 16
    ensures j < |acts| && acts[j] == LoadOffset(t) && Iterations(trace[j], t) == 16 ==> !InLoop(trace[j + 1], t)
  {
    RunKeepsInv(trace, acts, j);
    LoopBound(trace[j], t);
    if j < |acts| && acts[j] == LoadOffset(t) && Iterations(trace[j], t) == 16 {
      RunStep(trace, acts, j + 1);
      LastLoad(trace[j], t);
    }
  }

  lemma LoopBound(w: World, t: Tid)
    requires Inv(w) && LoopOk(w, t)
    ensures Iterations(w, t) <= 16
  {
    var pc := w.threads[t].pc;
    assert PcOk(w, t) && BufferOk(w, pc.buf);
    BlockSizeBounds(pc.layout.size);
  }

  lemma LastLoad(w: World, t: Tid)
    requires Inv(w) && LoopOk(w, t) && Possible(w, LoadOffset(t)) && Iterations(w, t) == 16
    ensures !InLoop(Next(w, LoadOffset(t)), t)
  {
    var pc := w.threads[t].pc;
    assert PcOk(w, t) && BufferOk(w, pc.buf);
    BlockSizeBounds(pc.layout.size);
  }
}
