/** The lock-free buffer seen by its callers: every grant answers a request that
    was made, with its buffer, size and alignment, at the first place that will do. */
module LockFreeBufferCalls {
  import opened Alignment
  import opened LockFreeBuffer
  import opened LockFreeBufferSafety

  // ----- the calls are the ones that were made -----

  /** A call of `try_alloc` as its caller makes it. */
  datatype Call = Call(buf: Bid, layout: Layout)

  function MadeNow(a: Action, t: Tid): seq<Call> {
    if a.Start? && a.t == t then [Call(a.b, a.layout)] else []
  }

  /** The calls that thread `t` has made. */
  function Made(acts: seq<Action>, t: Tid): seq<Call> {
    if acts == [] then [] else Made(acts[..|acts| - 1], t) + MadeNow(acts[|acts| - 1], t)
  }

  /** The calls of `t` that have returned. */
  function Returned(calls: seq<Return>, t: Tid): seq<Call> {
    if calls == [] then []
    else
      var r := calls[|calls| - 1];
      Returned(calls[..|calls| - 1], t) + if r.t == t then [Call(r.buf, r.layout)] else []
  }

  /** The call that a thread is in, if any. */
  function Running(pc: Pc): seq<Call> {
    if InCall(pc) then [Call(pc.buf, pc.layout)] else []
  }

  function Account(w: World, t: Tid): seq<Call> {
    Returned(w.calls, t) + if t in w.threads then Running(w.threads[t].pc) else []
  }

  lemma ReturnedAppend(calls: seq<Return>, r: Return, t: Tid)
    ensures Returned(calls + [r], t) == Returned(calls, t) + if r.t == t then [Call(r.buf, r.layout)] else []
  {
    assert (calls + [r])[..|calls|] == calls;
  }

  /** What one step does: it leaves the calls alone, or returns from one. */
  ghost predicate Goes(w: World, w': World, t: Tid) {
    && t in w.threads && t in w'.threads
    && w'.calls == w.calls && Running(w'.threads[t].pc) == Running(w.threads[t].pc)
  }

  ghost predicate Leaves(w: World, w': World, t: Tid, call: Call) {
    && t in w.threads && t in w'.threads && w'.threads[t].pc == Idle
    && |w'.calls| == |w.calls| + 1 && w'.calls == w.calls + [w'.calls[|w.calls|]]
    && var r := w'.calls[|w.calls|];
       r.t == t && Call(r.buf, r.layout) == call
  }

  lemma ServeLeaves(w: World, t: Tid, b: Bid, layout: Layout)
    requires t in w.threads && b in w.bufs && b in w.shadows && layout.align > 0
    ensures var (w', served) := Serve(w, t, b, layout);
            (served ==> Leaves(w, w', t, Call(b, layout))) && (!served ==> w' == w)
  {
  }

  lemma BeginRefillLeaves(w: World, t: Tid, b: Bid, layout: Layout)
    requires t in w.threads && b in w.bufs && Running(w.threads[t].pc) == [Call(b, layout)]
    ensures var w' := BeginRefill(w, t, b, layout); Goes(w, w', t) || Leaves(w, w', t, Call(b, layout))
  {
  }

  lemma TrySlabLeaves(w: World, t: Tid)
    requires Shaped(w) && Possible(w, TrySlab(t))
    ensures var (w', pc) := (TrySlabNext(w, t), w.threads[t].pc);
            Goes(w, w', t) || Leaves(w, w', t, Call(pc.buf, pc.layout))
  {
    var pc := w.threads[t].pc;
    ServeLeaves(w, t, pc.buf, pc.layout);
    BeginRefillLeaves(SetSlab(w, t, EMPTY_SLAB, 0), t, pc.buf, pc.layout);
    BeginRefillLeaves(w, t, pc.buf, pc.layout);
  }

  lemma InstallLeaves(w: World, t: Tid)
    requires Shaped(w) && Possible(w, Install(t))
    ensures Leaves(w, InstallNext(w, t), t, Call(w.threads[t].pc.buf, w.threads[t].pc.layout))
  {
    var pc := w.threads[t].pc;
    ServeLeaves(Installed(w, t), t, pc.buf, pc.layout);
  }

  /** Every step inside a call keeps to it or returns from it. */
  lemma StepLeaves(w: World, a: Action)
    requires Shaped(w) && Possible(w, a) && InCall(w.threads[a.t].pc)
    ensures var (w', pc) := (Next(w, a), w.threads[a.t].pc);
            Goes(w, w', a.t) || Leaves(w, w', a.t, Call(pc.buf, pc.layout))
  {
    match a
    case TrySlab(t) => TrySlabLeaves(w, t);
    case Install(t) => InstallLeaves(w, t);
    case _ =>
  }

  lemma StartLeaves(w: World, t: Tid, b: Bid, layout: Layout)
    requires Shaped(w) && Possible(w, Start(t, b, layout))
    ensures var w' := StartNext(w, t, b, layout);
            || Leaves(w, w', t, Call(b, layout))
            || (t in w'.threads && w'.calls == w.calls && Running(w'.threads[t].pc) == [Call(b, layout)])
  {
  }

  lemma LeavesAccount(w: World, w': World, t: Tid, call: Call, u: Tid)
    requires Leaves(w, w', t, call) && (u != t ==> (u in w.threads <==> u in w'.threads))
    requires u != t && u in w.threads ==> w'.threads[u] == w.threads[u]
    ensures Account(w', u) == (if u == t then Returned(w.calls, t) + [call] else Account(w, u))
  {
    ReturnedAppend(w.calls, w'.calls[|w.calls|], u);
  }

  lemma OthersAccount(w: World, a: Action, u: Tid)
    requires Shaped(w) && Possible(w, a) && u != a.t
    ensures (u in w.threads <==> u in Next(w, a).threads)
    ensures u in w.threads ==> Next(w, a).threads[u] == w.threads[u]
  {
    NextKeepsKeys(w, a);
    if u in w.threads {
      OthersUntouched(w, a, u);
    }
  }

  /** A step adds the call it makes to the account of its thread. */
  lemma NextAccounts(w: World, a: Action, u: Tid)
    requires Shaped(w) && Possible(w, a)
    ensures Account(Next(w, a), u) == Account(w, u) + MadeNow(a, u)
  {
    var w', t, pc := Next(w, a), a.t, w.threads[a.t].pc;
    if u != t {
      OthersAccount(w, a, u);
    }
    if InCall(pc) {
      StepLeaves(w, a);
      if Leaves(w, w', t, Call(pc.buf, pc.layout)) {
        LeavesAccount(w, w', t, Call(pc.buf, pc.layout), u);
      }
    } else if a.Start? {
      StartLeaves(w, t, a.b, a.layout);
      if Leaves(w, w', t, Call(a.b, a.layout)) {
        LeavesAccount(w, w', t, Call(a.b, a.layout), u);
      }
    }
  }

  /** In every interleaving, thread by thread and in order, the calls returned and
      the one running are the calls made, with their buffers and layouts. */
  lemma {:induction false} EveryCallIsAccountedFor(trace: seq<World>, acts: seq<Action>, i: nat, t: Tid)
    requires IsRun(trace, acts) && i < |trace|
    ensures Account(trace[i], t) == Made(acts[..i], t)
  {
    if i > 0 {
      EveryCallIsAccountedFor(trace, acts, i - 1, t);
      RunStep(trace, acts, i);
      AccountAt(trace[i - 1], acts[i - 1], trace[i], t);
      MadeUpTo(acts, i, t);
    }
  }

  lemma AccountAt(w: World, a: Action, w': World, t: Tid)
    requires Shaped(w) && Possible(w, a) && w' == Next(w, a)
    ensures Account(w', t) == Account(w, t) + MadeNow(a, t)
  {
    NextAccounts(w, a, t);
  }

  lemma MadeUpTo(acts: seq<Action>, i: nat, t: Tid)
    requires 0 < i <= |acts|
    ensures Made(acts[..i], t) == Made(acts[..i - 1], t) + MadeNow(acts[i - 1], t)
  {
    assert acts[..i][..i - 1] == acts[..i - 1];
  }
}
