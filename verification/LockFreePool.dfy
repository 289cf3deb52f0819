/** The lock-free pool: a linked stack whose head is changed by weak CAS.

    `World` is the shared memory of the pool plus the position of every thread
    inside `try_alloc` (a pop) or `dealloc` (a push).  `Next` is one atomic
    action.  The address of a freed node may be used again, unless a pop that
    has read it as the head has not yet tried its CAS; a read of a freed node
    returns whatever the action carries. */
module LockFreePool {
  import opened Options

  /** The modulus of a 64-bit counter. */
  const WORD: nat := 0x1_0000_0000_0000_0000

  type Tid = nat
  type Nid = nat

  datatype Node<T> = Node(data: T, next: Option<Nid>)

  /** `since` is the length of the history when the call began. */
  datatype Pc<T> =
    | Idle
    | PushReady(node: Nid, value: T, since: nat)
    | PushLoaded(node: Nid, seen: Option<Nid>, value: T, since: nat)
    | PushLinked(node: Nid, seen: Option<Nid>, value: T, since: nat)
    | PopLoop(since: nat)
    | PopLoaded(target: Nid, since: nat)
    | PopRead(target: Nid, next: Option<Nid>, since: nat)
    | PopTaken(node: Nid, since: nat, lp: nat)

  /** The moment at which a call takes effect. */
  datatype Event<T> = Pushed(t: Tid, value: T) | Popped(t: Tid, value: T) | Empty(t: Tid)

  /** A finished call, its argument or result, and its event. */
  datatype Return<T> =
    | PushReturn(t: Tid, value: T, since: nat, lp: nat)
    | PopReturn(t: Tid, since: nat, lp: nat, result: Option<T>)

  datatype Stats = Stats(allocations: nat, hits: nat, misses: nat, contention: nat)

  /** `heap`, `head` and `stats` are the source's.  The rest is history: the
      nodes from the head down, the thread that holds each node that is not
      among them, events and finished calls. */
  datatype World<T> = World(
    heap: map<Nid, Node<T>>, head: Option<Nid>, stats: Stats, threads: map<Tid, Pc<T>>,
    chain: seq<Nid>, priv: map<Nid, Tid>, history: seq<Event<T>>, calls: seq<Return<T>>)

  datatype Action<T> =
    | BeginPush(t: Tid, value: T, id: Nid)
    | PushLoad(t: Tid)
    | PushStore(t: Tid)
    | PushCas(t: Tid, spurious: bool)
    | BeginPop(t: Tid)
    | PopLoad(t: Tid)
    | PopReadNext(t: Tid, garbage: Option<Nid>)
    | PopCas(t: Tid, spurious: bool)
    | PopFinish(t: Tid)

  /** The pop at `pc` has read `n` as the head and will compare against it. */
  predicate Targets<T>(pc: Pc<T>, n: Nid) {
    (pc.PopLoaded? || pc.PopRead?) && pc.target == n
  }

  predicate Untargeted<T>(threads: map<Tid, Pc<T>>, n: Nid) {
    forall u :: u in threads ==> !Targets(threads[u], n)
  }

  predicate Enabled<T>(w: World<T>, a: Action<T>) {
    && a.t in w.threads
    && var pc := w.threads[a.t];
       match a
       case BeginPush(_, _, id) => pc.Idle? && id !in w.heap && Untargeted(w.threads, id)
       case PushLoad(_) => pc.PushReady?
       case PushStore(_) => pc.PushLoaded? && pc.node in w.heap
       case PushCas(_, _) => pc.PushLinked? && pc.node in w.heap
       case BeginPop(_) => pc.Idle?
       case PopLoad(_) => pc.PopLoop?
       case PopReadNext(_, _) => pc.PopLoaded?
       case PopCas(_, _) => pc.PopRead? && (w.head == Some(pc.target) ==> pc.target in w.heap)
       case PopFinish(_) => pc.PopTaken? && pc.node in w.heap
  }

  function SetPc<T>(w: World<T>, t: Tid, pc: Pc<T>): World<T> {
    w.(threads := w.threads[t := pc])
  }

  function Contended<T>(w: World<T>): World<T> {
    w.(stats := w.stats.(contention := w.stats.contention + 1))
  }

  /** A pop that found the stack empty. */
  function Missed<T>(w: World<T>, t: Tid, since: nat): World<T> {
    SetPc(w.(stats := w.stats.(misses := w.stats.misses + 1),
             history := w.history + [Empty(t)],
             calls := w.calls + [PopReturn(t, since, |w.history|, None)]), t, Idle)
  }

  function BeginPushNext<T>(w: World<T>, t: Tid, value: T, id: Nid): World<T> {
    SetPc(w.(heap := w.heap[id := Node(value, None)], priv := w.priv[id := t]), t, PushReady(id, value, |w.history|))
  }

  function PushStoreNext<T>(w: World<T>, t: Tid): World<T>
    requires Enabled(w, PushStore(t))
  {
    var pc := w.threads[t];
    SetPc(w.(heap := w.heap[pc.node := w.heap[pc.node].(next := pc.seen)]), t,
          PushLinked(pc.node, pc.seen, pc.value, pc.since))
  }

  /** `allocations` goes down by one on a push: a wrapping 64-bit subtraction. */
  function PushCasNext<T>(w: World<T>, t: Tid, spurious: bool): World<T>
    requires Enabled(w, PushCas(t, spurious))
  {
    var pc := w.threads[t];
    if w.head == pc.seen && !spurious then
      SetPc(w.(head := Some(pc.node),
               stats := w.stats.(allocations := Down(w.stats.allocations)),
               chain := [pc.node] + w.chain,
               priv := w.priv - {pc.node},
               history := w.history + [Pushed(t, w.heap[pc.node].data)],
               calls := w.calls + [PushReturn(t, pc.value, pc.since, |w.history|)]), t, Idle)
    else
      Contended(SetPc(w, t, PushReady(pc.node, pc.value, pc.since)))
  }

  function BeginPopNext<T>(w: World<T>, t: Tid): World<T> {
    if w.head.None? then Missed(w, t, |w.history|) else SetPc(w, t, PopLoop(|w.history|))
  }

  function PopLoadNext<T>(w: World<T>, t: Tid): World<T>
    requires Enabled(w, PopLoad(t))
  {
    var since := w.threads[t].since;
    if w.head.None? then Missed(w, t, since) else SetPc(w, t, PopLoaded(w.head.value, since))
  }

  function PopReadNextNext<T>(w: World<T>, t: Tid, garbage: Option<Nid>): World<T>
    requires Enabled(w, PopReadNext(t, garbage))
  {
    var pc := w.threads[t];
    SetPc(w, t, PopRead(pc.target, if pc.target in w.heap then w.heap[pc.target].next else garbage, pc.since))
  }

  function PopCasNext<T>(w: World<T>, t: Tid, spurious: bool): World<T>
    requires Enabled(w, PopCas(t, spurious))
  {
    var pc := w.threads[t];
    if w.head == Some(pc.target) && !spurious then
      SetPc(w.(head := pc.next,
               stats := w.stats.(allocations := Up(w.stats.allocations), hits := w.stats.hits + 1),
               chain := if w.chain == [] then [] else w.chain[1..],
               priv := w.priv[pc.target := t],
               history := w.history + [Popped(t, w.heap[pc.target].data)]), t,
            PopTaken(pc.target, pc.since, |w.history|))
    else
      Contended(SetPc(w, t, PopLoop(pc.since)))
  }

  /** Move the data out and free the node. */
  function PopFinishNext<T>(w: World<T>, t: Tid): World<T>
    requires Enabled(w, PopFinish(t))
  {
    var pc := w.threads[t];
    SetPc(w.(heap := w.heap - {pc.node},
             priv := w.priv - {pc.node},
             calls := w.calls + [PopReturn(t, pc.since, pc.lp, Some(w.heap[pc.node].data))]), t, Idle)
  }

  function Next<T>(w: World<T>, a: Action<T>): World<T>
    requires Enabled(w, a)
  {
    match a
    case BeginPush(t, value, id) => BeginPushNext(w, t, value, id)
    case PushLoad(t) => SetPc(w, t, PushLoaded(w.threads[t].node, w.head, w.threads[t].value, w.threads[t].since))
    case PushStore(t) => PushStoreNext(w, t)
    case PushCas(t, spurious) => PushCasNext(w, t, spurious)
    case BeginPop(t) => BeginPopNext(w, t)
    case PopLoad(t) => PopLoadNext(w, t)
    case PopReadNext(t, garbage) => PopReadNextNext(w, t, garbage)
    case PopCas(t, spurious) => PopCasNext(w, t, spurious)
    case PopFinish(t) => PopFinishNext(w, t)
  }

  /** Wrapping 64-bit increment and decrement. */
  function Up(n: nat): nat {
    if n + 1 == WORD then 0 else n + 1
  }

  function Down(n: nat): nat {
    if n == 0 then WORD - 1 else n - 1
  }

  // ----- the atomic stack -----

  /** The stack after a sequential history, top first; `None` if some pop does
      not return the top or reports empty on a non-empty stack. */
  function Replay<T(==)>(history: seq<Event<T>>): Option<seq<T>> {
    if history == [] then Some([])
    else
      var before := Replay(history[..|history| - 1]);
      if before.None? then None
      else
        var stack := before.value;
        match history[|history| - 1]
        case Pushed(_, v) => Some([v] + stack)
        case Popped(_, v) => if stack != [] && stack[0] == v then Some(stack[1..]) else None
        case Empty(_) => if stack == [] then Some([]) else None
  }

  function PushedValues<T>(history: seq<Event<T>>): multiset<T> {
    if history == [] then multiset{}
    else
      var e := history[|history| - 1];
      PushedValues(history[..|history| - 1]) + if e.Pushed? then multiset{e.value} else multiset{}
  }

  function PoppedValues<T>(history: seq<Event<T>>): multiset<T> {
    if history == [] then multiset{}
    else
      var e := history[|history| - 1];
      PoppedValues(history[..|history| - 1]) + if e.Popped? then multiset{e.value} else multiset{}
  }

  /** Conservation: what was pushed is what was popped plus what is stacked. */
  lemma {:induction false} Conservation<T>(history: seq<Event<T>>)
    requires Replay(history).Some?
    ensures PushedValues(history) == PoppedValues(history) + multiset(Replay(history).value)
  {
    if history != [] {
      var rest, e := history[..|history| - 1], history[|history| - 1];
      Conservation(rest);
      var stack := Replay(rest).value;
      if e.Popped? {
        assert stack == [stack[0]] + stack[1..];
      }
    }
  }
}
