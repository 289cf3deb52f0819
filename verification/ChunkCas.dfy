/** `Chunk::allocate`: a bump pointer advanced by a weak CAS loop, shared by
    any number of threads, while `reset` and `set_used` may store at any time.
    Every interleaving is linearizable to an atomic bump, and the atomic bump
    never hands out overlapping live ranges. */
module ChunkCas {
  import opened Alignment
  import opened Options

  type Tid = nat

  /** `since` is the length of the history when the call began. */
  datatype Pc = Idle | Looping(layout: Layout, since: nat) | Loaded(layout: Layout, seen: nat, since: nat)

  /** The moment at which a call takes effect; `Stored` is `reset` or `set_used`. */
  datatype Event =
    | Granted(t: Tid, layout: Layout, start: nat)
    | Refused(t: Tid, layout: Layout)
    | Stored(value: nat)

  datatype Return = Return(t: Tid, layout: Layout, since: nat, lp: nat, result: Option<nat>)

  /** `capacity` and `used` are the source's; the rest is positions and history. */
  datatype World = World(capacity: nat, used: nat, threads: map<Tid, Pc>, history: seq<Event>, calls: seq<Return>)

  datatype Action =
    | Invoke(t: Tid, layout: Layout)
    | Load(t: Tid)
    | Cas(t: Tid, spurious: bool)
    | Store(value: nat)

  predicate Enabled(w: World, a: Action) {
    match a
    case Invoke(t, layout) => t in w.threads && w.threads[t].Idle? && layout.align > 0
    case Load(t) => t in w.threads && w.threads[t].Looping? && w.threads[t].layout.align > 0
    case Cas(t, _) => t in w.threads && w.threads[t].Loaded? && w.threads[t].layout.align > 0
    case Store(_) => true
  }

  function Next(w: World, a: Action): World
    requires Enabled(w, a)
  {
    match a
    case Invoke(t, layout) => w.(threads := w.threads[t := Looping(layout, |w.history|)])
    case Load(t) => LoadNext(w, t)
    case Cas(t, spurious) => CasNext(w, t, spurious)
    case Store(value) => w.(used := value, history := w.history + [Stored(value)])
  }

  function Finish(w: World, t: Tid, e: Event, used: nat, result: Option<nat>): World
    requires t in w.threads && !w.threads[t].Idle?
  {
    var pc := w.threads[t];
    w.(used := used, threads := w.threads[t := Idle], history := w.history + [e],
       calls := w.calls + [Return(t, pc.layout, pc.since, |w.history|, result)])
  }

  function LoadNext(w: World, t: Tid): World
    requires Enabled(w, Load(t))
  {
    var pc := w.threads[t];
    if AlignUp(w.used, pc.layout.align) + pc.layout.size > w.capacity
    then Finish(w, t, Refused(t, pc.layout), w.used, None)
    else w.(threads := w.threads[t := Loaded(pc.layout, w.used, pc.since)])
  }

  function CasNext(w: World, t: Tid, spurious: bool): World
    requires Enabled(w, Cas(t, spurious))
  {
    var pc := w.threads[t];
    var start := AlignUp(pc.seen, pc.layout.align);
    if w.used == pc.seen && !spurious
    then Finish(w, t, Granted(t, pc.layout, start), start + pc.layout.size, Some(start))
    else w.(threads := w.threads[t := Looping(pc.layout, pc.since)])
  }

  // ----- the atomic bump -----

  /** The bump pointer after a sequential history from an empty chunk; `None`
      if some answer is not the atomic bump's. */
  function Replay(capacity: nat, history: seq<Event>): Option<nat> {
    if history == [] then Some(0)
    else
      var before := Replay(capacity, history[..|history| - 1]);
      if before.None? then None
      else
        match history[|history| - 1]
        case Granted(_, layout, start) =>
          if layout.align > 0 && start == AlignUp(before.value, layout.align) && start + layout.size <= capacity
          then Some(start + layout.size) else None
        case Refused(_, layout) =>
          if layout.align > 0 && AlignUp(before.value, layout.align) + layout.size > capacity then before else None
        case Stored(value) => Some(value)
  }

  function End(e: Event): nat
    requires e.Granted?
  {
    e.start + e.layout.size
  }

  /** A granted range is live until the pointer is stored below its end. */
  ghost predicate Live(history: seq<Event>, k: int) {
    && 0 <= k < |history|
    && history[k].Granted?
    && forall j :: k < j < |history| && history[j].Stored? ==> End(history[k]) <= history[j].value
  }

  /** The atomic bump: live ranges end at or below the pointer, inside the
      chunk, at the requested alignment, and never overlap. */
  lemma {:induction false} AtomicBumpIsSafe(capacity: nat, history: seq<Event>)
    requires Replay(capacity, history).Some?
    ensures forall k :: Live(history, k) ==>
              && End(history[k]) <= Replay(capacity, history).value
              && End(history[k]) <= capacity
              && history[k].layout.align > 0 && history[k].start % history[k].layout.align == 0
    ensures forall j, k :: j < k && Live(history, j) && Live(history, k) ==> End(history[j]) <= history[k].start
  {
    if history != [] {
      var n := |history| - 1;
      var before := history[..n];
      AtomicBumpIsSafe(capacity, before);
      forall k | Live(history, k) && k < n ensures Live(before, k) && before[k] == history[k] {
        assert forall j :: 0 <= j < n ==> before[j] == history[j];
      }
    }
  }

  // ----- linearizability -----

  ghost predicate PcOk(w: World, t: Tid)
    requires t in w.threads
  {
    match w.threads[t]
    case Idle => true
    case Looping(layout, since) => layout.align > 0 && since <= |w.history|
    case Loaded(layout, seen, since) =>
      layout.align > 0 && since <= |w.history| && AlignUp(seen, layout.align) + layout.size <= w.capacity
  }

  predicate CallOk(w: World, c: Return) {
    && c.since <= c.lp < |w.history|
    && w.history[c.lp] == if c.result.Some? then Granted(c.t, c.layout, c.result.value) else Refused(c.t, c.layout)
  }

  /** Event `i` is the one moment at which some finished call took effect. */
  ghost predicate OfACall(w: World, i: nat) {
    exists k :: 0 <= k < |w.calls| && w.calls[k].lp == i
  }

  /** The history replays on the atomic bump to the shared pointer; every
      finished call has its own event, inside its interval, with its result;
      and there are no other events but stores. */
  ghost predicate Linearizable(w: World) {
    && Replay(w.capacity, w.history) == Some(w.used)
    && (forall k :: 0 <= k < |w.calls| ==> CallOk(w, w.calls[k]))
    && (forall j, k :: 0 <= j < k < |w.calls| ==> w.calls[j].lp < w.calls[k].lp)
    && (forall i :: 0 <= i < |w.history| && !w.history[i].Stored? ==> OfACall(w, i))
  }

  ghost predicate Inv(w: World) {
    Linearizable(w) && forall t :: t in w.threads ==> PcOk(w, t)
  }

  ghost predicate Init(w: World) {
    w.used == 0 && w.history == [] && w.calls == [] && forall t :: t in w.threads ==> w.threads[t] == Idle
  }

  lemma ReplayAppend(capacity: nat, history: seq<Event>, e: Event, used: nat)
    requires Replay(capacity, history) == Some(used)
    ensures Replay(capacity, history + [e]) ==
              match e
              case Granted(_, layout, start) =>
                if layout.align > 0 && start == AlignUp(used, layout.align) && start + layout.size <= capacity
                then Some(start + layout.size) else None
              case Refused(_, layout) =>
                if layout.align > 0 && AlignUp(used, layout.align) + layout.size > capacity then Some(used) else None
              case Stored(value) => Some(value)
  {
    assert (history + [e])[..|history|] == history;
  }

  lemma LoadReplays(w: World, t: Tid)
    requires Inv(w) && Enabled(w, Load(t))
    ensures Replay(w.capacity, LoadNext(w, t).history) == Some(LoadNext(w, t).used)
  {
    assert PcOk(w, t);
    ReplayAppend(w.capacity, w.history, Refused(t, w.threads[t].layout), w.used);
  }

  lemma CasReplays(w: World, t: Tid, spurious: bool)
    requires Inv(w) && Enabled(w, Cas(t, spurious))
    ensures Replay(w.capacity, CasNext(w, t, spurious).history) == Some(CasNext(w, t, spurious).used)
  {
    var pc := w.threads[t];
    assert PcOk(w, t);
    ReplayAppend(w.capacity, w.history, Granted(t, pc.layout, AlignUp(pc.seen, pc.layout.align)), w.used);
  }

  /** What every action does to the histories. */
  lemma NextReplays(w: World, a: Action)
    requires Inv(w) && Enabled(w, a)
    ensures Replay(w.capacity, Next(w, a).history) == Some(Next(w, a).used)
  {
    match a
    case Invoke(_, _) =>
    case Load(t) => LoadReplays(w, t);
    case Cas(t, spurious) => CasReplays(w, t, spurious);
    case Store(value) => ReplayAppend(w.capacity, w.history, Stored(value), w.used);
  }

  lemma NextKeepsInv(w: World, a: Action)
    requires Inv(w) && Enabled(w, a)
    ensures Inv(Next(w, a))
  {
    NextReplays(w, a);
    NextThreads(w, a);
    NextCalls(w, a);
    NextEvents(w, a);
  }

  lemma NextEvents(w: World, a: Action)
    requires Inv(w) && Enabled(w, a)
    ensures var w' := Next(w, a);
            forall i :: 0 <= i < |w'.history| && !w'.history[i].Stored? ==> OfACall(w', i)
  {
    var w' := Next(w, a);
    forall i | 0 <= i < |w'.history| && !w'.history[i].Stored? ensures OfACall(w', i) {
      if i < |w.history| {
        assert OfACall(w, i);
        var k :| 0 <= k < |w.calls| && w.calls[k].lp == i;
        assert w'.calls[k] == w.calls[k];
      } else {
        assert w'.calls[|w.calls|].lp == i;
      }
    }
  }

  lemma NextThreads(w: World, a: Action)
    requires Inv(w) && Enabled(w, a)
    ensures forall t :: t in Next(w, a).threads ==> PcOk(Next(w, a), t)
  {
    var w' := Next(w, a);
    if !a.Store? {
      assert PcOk(w, a.t);
    }
    forall t | t in w'.threads ensures PcOk(w', t) {
      if t in w.threads {
        assert PcOk(w, t);
      }
    }
  }

  lemma NextCalls(w: World, a: Action)
    requires Inv(w) && Enabled(w, a)
    ensures var w' := Next(w, a);
            && (forall k :: 0 <= k < |w'.calls| ==> CallOk(w', w'.calls[k]))
            && (forall j, k :: 0 <= j < k < |w'.calls| ==> w'.calls[j].lp < w'.calls[k].lp)
  {
    var w' := Next(w, a);
    if !a.Store? {
      assert PcOk(w, a.t);
    }
    forall k | 0 <= k < |w'.calls| ensures CallOk(w', w'.calls[k]) {
      if k < |w.calls| {
        assert CallOk(w, w.calls[k]);
      }
    }
  }

  ghost predicate IsRun(trace: seq<World>, acts: seq<Action>) {
    && |trace| == |acts| + 1
    && Init(trace[0])
    && forall i :: 0 <= i < |acts| ==> Enabled(trace[i], acts[i]) && trace[i + 1] == Next(trace[i], acts[i])
  }

  lemma {:induction false} RunKeepsInv(trace: seq<World>, acts: seq<Action>, i: nat)
    requires IsRun(trace, acts) && i < |trace|
    ensures Inv(trace[i])
  {
    if i > 0 {
      RunKeepsInv(trace, acts, i - 1);
      NextKeepsInv(trace[i - 1], acts[i - 1]);
    }
  }

  // ----- the calls are the ones that were made -----

  /** A call as its caller sees it begin: the request, and how much had happened. */
  datatype Call = Call(layout: Layout, since: nat)

  /** The calls that thread `t` has made. */
  function Made(trace: seq<World>, acts: seq<Action>, t: Tid): seq<Call>
    requires |trace| > |acts|
    decreases |acts|
  {
    if acts == [] then []
    else
      var n := |acts| - 1;
      Made(trace, acts[..n], t) +
      if acts[n].Invoke? && acts[n].t == t then [Call(acts[n].layout, |trace[n].history|)] else []
  }

  /** The calls of `t` that have returned. */
  function Returned(calls: seq<Return>, t: Tid): seq<Call> {
    if calls == [] then []
    else
      var last := calls[|calls| - 1];
      Returned(calls[..|calls| - 1], t) + if last.t == t then [Call(last.layout, last.since)] else []
  }

  /** The call that `t` is in, if any. */
  function Running(w: World, t: Tid): seq<Call> {
    if t !in w.threads || w.threads[t].Idle? then [] else [Call(w.threads[t].layout, w.threads[t].since)]
  }

  function StoredValues(history: seq<Event>): seq<nat> {
    if history == [] then []
    else
      var last := history[|history| - 1];
      StoredValues(history[..|history| - 1]) + if last.Stored? then [last.value] else []
  }

  function StoresMade(acts: seq<Action>): seq<nat> {
    if acts == [] then []
    else
      var last := acts[|acts| - 1];
      StoresMade(acts[..|acts| - 1]) + if last.Store? then [last.value] else []
  }

  lemma ReturnedAppend(calls: seq<Return>, r: Return, t: Tid)
    ensures Returned(calls + [r], t) == Returned(calls, t) + if r.t == t then [Call(r.layout, r.since)] else []
  {
    assert (calls + [r])[..|calls|] == calls;
  }

  lemma StoredAppend(history: seq<Event>, e: Event)
    ensures StoredValues(history + [e]) == StoredValues(history) + if e.Stored? then [e.value] else []
  {
    assert (history + [e])[..|history|] == history;
  }

  /** The calls of `t`, returned and running. */
  function Account(w: World, t: Tid): seq<Call> {
    Returned(w.calls, t) + Running(w, t)
  }

  /** Returning moves a call from running to returned. */
  lemma FinishAccounts(w: World, t: Tid, e: Event, used: nat, result: Option<nat>, u: Tid)
    requires t in w.threads && !w.threads[t].Idle?
    ensures Account(Finish(w, t, e, used, result), u) == Account(w, u)
  {
    var pc := w.threads[t];
    ReturnedAppend(w.calls, Return(t, pc.layout, pc.since, |w.history|, result), u);
  }

  lemma NextAccounts(w: World, a: Action, t: Tid)
    requires Enabled(w, a)
    ensures Account(Next(w, a), t) ==
              Account(w, t) + if a.Invoke? && a.t == t then [Call(a.layout, |w.history|)] else []
  {
    match a
    case Invoke(_, _) =>
    case Load(u) => FinishAccounts(w, u, Refused(u, w.threads[u].layout), w.used, None, t);
    case Cas(u, _) =>
      var pc := w.threads[u];
      var start := AlignUp(pc.seen, pc.layout.align);
      FinishAccounts(w, u, Granted(u, pc.layout, start), start + pc.layout.size, Some(start), t);
    case Store(_) =>
  }

  lemma NextStores(w: World, a: Action)
    requires Enabled(w, a)
    ensures StoredValues(Next(w, a).history) == StoredValues(w.history) + if a.Store? then [a.value] else []
  {
    var w' := Next(w, a);
    if |w'.history| > |w.history| {
      StoredAppend(w.history, w'.history[|w.history|]);
    }
  }

  lemma {:induction false} RunAccounts(trace: seq<World>, acts: seq<Action>, i: nat, t: Tid)
    requires IsRun(trace, acts) && i < |trace|
    ensures Account(trace[i], t) == Made(trace, acts[..i], t)
    ensures StoredValues(trace[i].history) == StoresMade(acts[..i])
  {
    if i > 0 {
      RunAccounts(trace, acts, i - 1, t);
      NextAccounts(trace[i - 1], acts[i - 1], t);
      NextStores(trace[i - 1], acts[i - 1]);
      assert acts[..i][..i - 1] == acts[..i - 1];
    }
  }

  /** Every interleaving of loads, CASes, spurious failures and stores is
      linearizable, and its live ranges are disjoint and below `used`.  The
      calls it linearizes, with the one each thread is in, are thread by thread
      and in order the requests made, and its stores are the stores made. */
  lemma EveryInterleavingIsABump(trace: seq<World>, acts: seq<Action>, i: nat)
    requires IsRun(trace, acts) && i < |trace|
    ensures Linearizable(trace[i])
    ensures forall k :: Live(trace[i].history, k) ==>
              End(trace[i].history[k]) <= trace[i].used && End(trace[i].history[k]) <= trace[i].capacity
    ensures forall j, k :: j < k && Live(trace[i].history, j) && Live(trace[i].history, k) ==>
              End(trace[i].history[j]) <= trace[i].history[k].start
    ensures forall t :: Account(trace[i], t) == Made(trace, acts[..i], t)
    ensures StoredValues(trace[i].history) == StoresMade(acts[..i])
  {
    forall t ensures Account(trace[i], t) == Made(trace, acts[..i], t) {
      RunAccounts(trace, acts, i, t);
    }
    RunAccounts(trace, acts, i, 0);
    RunKeepsInv(trace, acts, i);
    AtomicBumpIsSafe(trace[i].capacity, trace[i].history);
  }
}
