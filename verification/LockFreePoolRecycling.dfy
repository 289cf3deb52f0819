/** When the address of a freed node may be used again, exactly. */
module LockFreePoolRecycling {
  import opened LockFreePool
  import opened LockFreePoolSafety
  import opened Options
  import opened Sequencing

  // ----- continuations -----

  function TryNext<T>(w: World<T>, a: Action<T>): Option<World<T>> {
    if Enabled(w, a) then Some(Next(w, a)) else None
  }

  /** Whatever happens from `w` on is an atomic stack. */
  ghost predicate AlwaysLinearizable<T(!new)>(w: World<T>) {
    forall acts, w' :: Leads(TryNext, w, acts, w') ==> Linearizable(w')
  }

  lemma {:induction false} LeadsKeepsInv<T(!new)>(w: World<T>, acts: seq<Action<T>>, w': World<T>)
    requires Inv(w) && Leads(TryNext, w, acts, w')
    ensures Inv(w')
    decreases acts
  {
    if acts != [] {
      NextKeepsInv(w, acts[0]);
      LeadsKeepsInv(Next(w, acts[0]), acts[1..], w');
    }
  }

  lemma InvAlwaysLinearizable<T(!new)>(w: World<T>)
    requires Inv(w)
    ensures AlwaysLinearizable(w)
  {
    forall acts, w' | Leads(TryNext, w, acts, w') ensures Linearizable(w') {
      LeadsKeepsInv(w, acts, w');
      InvMeaning(w');
    }
  }

  // ----- calls that nobody interrupts -----

  function FinishSteps<T>(u: Tid): seq<Action<T>> {
    [PushLoad(u), PushStore(u), PushCas(u, false)]
  }

  /** A push that has its node puts it on top. */
  ghost predicate PushedOn<T>(w: World<T>, w': World<T>, u: Tid, id: Nid) {
    && id in w.heap && w'.heap == w.heap[id := w.heap[id].(next := w.head)]
    && w'.head == Some(id) && w'.chain == [id] + w.chain
    && w'.threads == w.threads[u := Idle]
  }

  lemma SoloFinish<T(!new)>(w: World<T>, u: Tid) returns (w': World<T>)
    requires u in w.threads && w.threads[u].PushReady? && w.threads[u].node in w.heap
    ensures Leads(TryNext, w, FinishSteps(u), w')
    ensures PushedOn(w, w', u, w.threads[u].node)
  {
    var w1 := Next(w, PushLoad(u));
    var w2 := Next(w1, PushStore(u));
    w' := Next(w2, PushCas(u, false));
    assert w.threads[u := w1.threads[u]][u := w2.threads[u]][u := Idle] == w.threads[u := Idle];
    ThreeSteps(TryNext, w, PushLoad(u), w1, PushStore(u), w2, PushCas(u, false), w');
  }

  function PushSteps<T>(u: Tid, value: T, id: Nid): seq<Action<T>> {
    [BeginPush(u, value, id)] + FinishSteps(u)
  }

  lemma SoloPush<T(!new)>(w: World<T>, u: Tid, value: T, id: Nid) returns (w': World<T>)
    requires Enabled(w, BeginPush(u, value, id))
    ensures Leads(TryNext, w, PushSteps(u, value, id), w')
    ensures w'.heap == w.heap[id := Node(value, w.head)] && w'.head == Some(id) && w'.chain == [id] + w.chain
    ensures w'.threads == w.threads
  {
    var w1 := Next(w, BeginPush(u, value, id));
    w' := SoloFinish(w1, u);
    assert w.threads[u := w1.threads[u]][u := Idle] == w.threads;
    LeadsFrom(TryNext, w, BeginPush(u, value, id), w1, FinishSteps(u), w');
  }

  function ReadSteps<T>(u: Tid): seq<Action<T>> {
    [BeginPop(u), PopLoad(u)]
  }

  /** A pop reads the head. */
  lemma SoloReads<T(!new)>(w: World<T>, u: Tid) returns (w': World<T>)
    requires u in w.threads && w.threads[u].Idle? && w.head.Some?
    ensures Leads(TryNext, w, ReadSteps(u), w')
    ensures w' == SetPc(w, u, PopLoaded(w.head.value, |w.history|))
  {
    var w1 := Next(w, BeginPop(u));
    w' := Next(w1, PopLoad(u));
    assert w.threads[u := w1.threads[u]][u := w'.threads[u]] == w.threads[u := w'.threads[u]];
    TwoSteps(TryNext, w, BeginPop(u), w1, PopLoad(u), w');
  }

  function TakeSteps<T>(u: Tid): seq<Action<T>> {
    [PopReadNext(u, None), PopCas(u, false), PopFinish(u)]
  }

  /** It takes the head and frees it. */
  lemma SoloTakes<T(!new)>(w: World<T>, u: Tid) returns (w': World<T>)
    requires u in w.threads && w.threads[u].PopLoaded? && w.head == Some(w.threads[u].target)
    requires w.threads[u].target in w.heap
    ensures Leads(TryNext, w, TakeSteps(u), w')
    ensures w'.heap == w.heap - {w.threads[u].target} && w'.threads == w.threads[u := Idle]
  {
    var w1 := Next(w, PopReadNext(u, None));
    var w2 := Next(w1, PopCas(u, false));
    w' := Next(w2, PopFinish(u));
    assert w.threads[u := w1.threads[u]][u := w2.threads[u]][u := Idle] == w.threads[u := Idle];
    ThreeSteps(TryNext, w, PopReadNext(u, None), w1, PopCas(u, false), w2, PopFinish(u), w');
  }

  // ----- an address that comes back too soon -----

  /** Some number is not in a finite set of numbers. */
  lemma {:induction false} Unused(used: set<nat>) returns (n: nat)
    ensures n !in used && forall m :: m in used ==> m < n
  {
    if used == {} {
      n := 0;
    } else {
      var x :| x in used;
      var rest := used - {x};
      n := Unused(rest);
      n := if n <= x then x + 1 else n;
      assert forall m :: m in used ==> m == x || m in rest;
    }
  }

  ghost function TargetsOf<T>(threads: map<Tid, Pc<T>>): set<Nid> {
    set t | t in threads && (threads[t].PopLoaded? || threads[t].PopRead?) :: threads[t].target
  }

  /** An address that no node has, no pop is after, and is not `next`. */
  lemma UnusedAddress<T(!new)>(w: World<T>, next: Option<Nid>) returns (n: Nid)
    ensures n !in w.heap && Untargeted(w.threads, n) && next != Some(n)
  {
    n := Unused(w.heap.Keys + TargetsOf(w.threads) + if next.Some? then {next.value} else {});
    forall t | t in w.threads ensures !Targets(w.threads[t], n) {
      if w.threads[t].PopLoaded? || w.threads[t].PopRead? {
        assert w.threads[t].target in TargetsOf(w.threads);
      }
    }
  }

  /** `t` has read the address and `next` as its link; `u` is pushing a new node
      with that address; `v` is idle. */
  ghost predicate Confused<T>(w: World<T>, t: Tid, u: Tid, v: Tid) {
    && t in w.threads && u in w.threads && v in w.threads
    && w.threads[t].PopRead? && w.threads[u].PushReady? && w.threads[v].Idle?
    && w.threads[u].node in w.heap && w.threads[u].node == w.threads[t].target
  }

  /** `v` pushes a node, `u` pushes its own on top, and the CAS of `t` succeeds:
      it removes both. */
  lemma ConfusedUnlinks<T(!new)>(w: World<T>, t: Tid, u: Tid, v: Tid, value: T)
    returns (acts: seq<Action<T>>, w': World<T>)
    requires Confused(w, t, u, v)
    ensures Leads(TryNext, w, acts, w') && !Linked(w'.heap, w'.head, w'.chain)
  {
    var id, next := w.threads[t].target, w.threads[t].next;
    var n := UnusedAddress(w, next);
    var w1 := SoloPush(w, v, value, n);
    var w2 := SoloFinish(w1, u);
    w' := Next(w2, PopCas(t, false));
    assert w2.chain[1..] == w1.chain;
    assert At(w'.chain, 0) == Some(n);
    OneStep(TryNext, w2, PopCas(t, false), w');
    LeadsOn(TryNext, w, PushSteps(v, value, n), w1, FinishSteps(u), w2);
    acts := PushSteps(v, value, n) + FinishSteps(u) + [PopCas(t, false)];
    LeadsOn(TryNext, w, PushSteps(v, value, n) + FinishSteps(u), w2, [PopCas(t, false)], w');
  }

  /** The pop has read the address, and may have its link still to read. */
  lemma TooSoonUnlinks<T(!new)>(w: World<T>, t: Tid, u: Tid, v: Tid, value: T, id: Nid)
    returns (acts: seq<Action<T>>, w': World<T>)
    requires u in w.threads && w.threads[u].Idle? && v in w.threads && w.threads[v].Idle? && u != v
    requires t in w.threads && Targets(w.threads[t], id)
    ensures Leads(TryNext, BeginPushNext(w, u, value, id), acts, w') && !Linked(w'.heap, w'.head, w'.chain)
  {
    var w0 := BeginPushNext(w, u, value, id);
    if w.threads[t].PopRead? {
      acts, w' := ConfusedUnlinks(w0, t, u, v, value);
    } else {
      var w1 := Next(w0, PopReadNext(t, None));
      acts, w' := ConfusedUnlinks(w1, t, u, v, value);
      LeadsFrom(TryNext, w0, PopReadNext(t, None), w1, acts, w');
      acts := [PopReadNext(t, None)] + acts;
    }
  }

  /** In every reachable state with another idle thread, a push may use a free
      address if and only if no pop that has read it as the head is still to
      try its CAS: otherwise the stack can be broken. */
  lemma RecyclingIsSafeIffUntargeted<T(!new)>(w: World<T>, u: Tid, v: Tid, value: T, id: Nid)
    requires Inv(w) && id !in w.heap
    requires u in w.threads && w.threads[u].Idle? && v in w.threads && w.threads[v].Idle? && u != v
    ensures Untargeted(w.threads, id) <==> AlwaysLinearizable(BeginPushNext(w, u, value, id))
  {
    if Untargeted(w.threads, id) {
      NextKeepsInv(w, BeginPush(u, value, id));
      InvAlwaysLinearizable(BeginPushNext(w, u, value, id));
    } else {
      var t :| t in w.threads && Targets(w.threads[t], id);
      var acts, w' := TooSoonUnlinks(w, t, u, v, value, id);
    }
  }

  /** From an empty pool: `u` pushes a node, `t` reads it as the head, `u` pops
      and frees it.  Its address must not be used again yet. */
  lemma FreedWhileRead<T(!new)>(w: World<T>, t: Tid, u: Tid, v: Tid, value: T, id: Nid) returns (w': World<T>)
    requires Init(w) && t in w.threads && u in w.threads && v in w.threads && t != u && u != v && v != t
    ensures Leads(TryNext, w, PushSteps(u, value, id) + ReadSteps(t) + ReadSteps(u) + TakeSteps(u), w')
    ensures u in w'.threads && w'.threads[u].Idle? && id !in w'.heap
    ensures !AlwaysLinearizable(BeginPushNext(w', u, value, id))
  {
    InitInv(w);
    var w1 := SoloPush(w, u, value, id);
    var w2 := SoloReads(w1, t);
    var w3 := SoloReads(w2, u);
    w' := SoloTakes(w3, u);
    LeadsOn(TryNext, w, PushSteps(u, value, id), w1, ReadSteps(t), w2);
    LeadsOn(TryNext, w, PushSteps(u, value, id) + ReadSteps(t), w2, ReadSteps(u), w3);
    LeadsOn(TryNext, w, PushSteps(u, value, id) + ReadSteps(t) + ReadSteps(u), w3, TakeSteps(u), w');
    LeadsKeepsInv(w, PushSteps(u, value, id) + ReadSteps(t) + ReadSteps(u) + TakeSteps(u), w');
    assert Targets(w'.threads[t], id);
    RecyclingIsSafeIffUntargeted(w', u, v, value, id);
  }
}
