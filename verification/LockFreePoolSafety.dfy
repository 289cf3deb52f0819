/** Every interleaving of the lock-free pool is an atomic last-in first-out
    stack, and no node is leaked, freed twice or freed while reachable. */
module LockFreePoolSafety {
  import opened Alignment
  import opened DistinctIndices
  import opened LockFreePool
  import opened Options

  /** `chain` lists the nodes reachable from `head`, in order. */
  ghost predicate Linked<T>(heap: map<Nid, Node<T>>, head: Option<Nid>, chain: seq<Nid>) {
    && head == At(chain, 0)
    && (forall i :: 0 <= i < |chain| ==> chain[i] in heap)
    && (forall i :: 0 <= i < |chain| ==> LinksTo(heap, chain, i))
    && Distinct(chain)
  }

  predicate LinksTo<T>(heap: map<Nid, Node<T>>, chain: seq<Nid>, i: nat) {
    i < |chain| && chain[i] in heap && heap[chain[i]].next == At(chain, i + 1)
  }

  function At(chain: seq<Nid>, i: nat): Option<Nid> {
    if i < |chain| then Some(chain[i]) else None
  }

  function Values<T>(heap: map<Nid, Node<T>>, chain: seq<Nid>): (r: seq<T>)
    requires forall i :: 0 <= i < |chain| ==> chain[i] in heap
    ensures |r| == |chain|
    ensures forall i :: 0 <= i < |r| ==> r[i] == heap[chain[i]].data
  {
    seq(|chain|, i requires 0 <= i < |chain| => heap[chain[i]].data)
  }

  predicate Pushing<T>(pc: Pc<T>) {
    pc.PushReady? || pc.PushLoaded? || pc.PushLinked?
  }

  predicate Owns<T>(pc: Pc<T>) {
    Pushing(pc) || pc.PopTaken?
  }

  /** The nodes exist and every one is on the stack or private to a thread. */
  ghost predicate NodesOk<T>(w: World<T>) {
    && Linked(w.heap, w.head, w.chain)
    && (forall n :: n in w.heap ==> n in w.chain || n in w.priv)
    && (forall n :: n in w.priv ==>
          && n in w.heap && n !in w.chain
          && w.priv[n] in w.threads && Owns(w.threads[w.priv[n]]) && w.threads[w.priv[n]].node == n)
  }

  ghost predicate ThreadOk<T(!new)>(w: World<T>, t: Tid)
    requires t in w.threads
  {
    var pc := w.threads[t];
    && (Owns(pc) ==> pc.node in w.priv && w.priv[pc.node] == t && pc.node in w.heap)
    && (!pc.Idle? ==> pc.since <= |w.history|)
    && (Pushing(pc) ==> w.heap[pc.node].data == pc.value && Untargeted(w.threads, pc.node))
    && (pc.PushLinked? ==> w.heap[pc.node].next == pc.seen)
    && (pc.PopRead? && pc.target in w.chain ==> pc.target in w.heap && w.heap[pc.target].next == pc.next)
    && (pc.PopTaken? ==>
          pc.since <= pc.lp < |w.history| && w.history[pc.lp] == Popped(t, w.heap[pc.node].data))
  }

  /** A finished call took effect at its own event, inside its own interval. */
  predicate CallOk<T(==)>(w: World<T>, c: Return<T>) {
    && c.since <= c.lp < |w.history|
    && match c
       case PushReturn(t, v, _, lp) => w.history[lp] == Pushed(t, v)
       case PopReturn(t, _, lp, None) => w.history[lp] == Empty(t)
       case PopReturn(t, _, lp, Some(v)) => w.history[lp] == Popped(t, v)
  }

  /** Event `i` is that of a finished call, or of a pop about to return. */
  ghost predicate OfACall<T(!new)>(w: World<T>, i: nat) {
    || (exists k :: 0 <= k < |w.calls| && w.calls[k].lp == i)
    || (exists t :: t in w.threads && w.threads[t].PopTaken? && w.threads[t].lp == i)
  }

  ghost predicate CallsOk<T(!new)>(w: World<T>) {
    && (forall i :: 0 <= i < |w.history| ==> OfACall(w, i))
    && (forall k :: 0 <= k < |w.calls| ==> CallOk(w, w.calls[k]))
    && (forall j, k :: 0 <= j < k < |w.calls| ==> w.calls[j].lp != w.calls[k].lp)
    && (forall k, t :: 0 <= k < |w.calls| && t in w.threads && w.threads[t].PopTaken? ==>
          w.calls[k].lp != w.threads[t].lp)
    && (forall t, u :: t in w.threads && u in w.threads && t != u
                       && w.threads[t].PopTaken? && w.threads[u].PopTaken? ==>
          w.threads[t].lp != w.threads[u].lp)
  }

  ghost predicate Inv<T(!new)>(w: World<T>) {
    && NodesOk(w)
    && (forall t :: t in w.threads ==> ThreadOk(w, t))
    && CallsOk(w)
    && Replay(w.history) == Some(Values(w.heap, w.chain))
    && w.stats.allocations == Descended(|w.chain|)
  }

  /** The counter after `n` decrements from zero. */
  function Descended(n: nat): (r: nat)
    ensures r < WORD
  {
    if n == 0 then 0 else Down(Descended(n - 1))
  }

  ghost predicate Init<T(!new)>(w: World<T>) {
    && w.heap == map[] && w.head == None && w.stats == Stats(0, 0, 0, 0)
    && (forall t :: t in w.threads ==> w.threads[t] == Idle)
    && w.chain == [] && w.priv == map[] && w.history == [] && w.calls == []
  }

  lemma InitInv<T(!new)>(w: World<T>)
    requires Init(w)
    ensures Inv(w)
  {
  }

  /** The code never touches a freed node, except to read `next` in a pop:
      every action a thread is about to take is possible. */
  lemma NoDanglingNode<T(!new)>(w: World<T>, t: Tid)
    requires Inv(w) && t in w.threads
    ensures w.threads[t].PushLoaded? ==> Enabled(w, PushStore(t))
    ensures w.threads[t].PushLinked? ==> Enabled(w, PushCas(t, false))
    ensures w.threads[t].PopRead? ==> Enabled(w, PopCas(t, false))
    ensures w.threads[t].PopTaken? ==> Enabled(w, PopFinish(t))
  {
    assert ThreadOk(w, t);
  }

  lemma ReplayAppend<T>(history: seq<Event<T>>, e: Event<T>, stack: seq<T>)
    requires Replay(history) == Some(stack)
    ensures e.Pushed? ==> Replay(history + [e]) == Some([e.value] + stack)
    ensures e.Popped? && stack != [] && stack[0] == e.value ==> Replay(history + [e]) == Some(stack[1..])
    ensures e.Empty? && stack == [] ==> Replay(history + [e]) == Some([])
  {
    assert (history + [e])[..|history|] == history;
  }

  // ----- what one thread's action leaves alone -----

  /** Everything another thread relies on survives an action of `t`: the
      nodes it owns, the links of stacked nodes it has read, and the past. */
  ghost predicate Undisturbed<T>(w: World<T>, w': World<T>, t: Tid) {
    && t in w.threads
    && w'.threads.Keys == w.threads.Keys
    && (forall u :: u in w.threads && u != t ==> w'.threads[u] == w.threads[u])
    && (forall n :: n in w.priv && w.priv[n] != t ==>
          n in w'.priv && w'.priv[n] == w.priv[n] && n in w.heap && n in w'.heap && w'.heap[n] == w.heap[n])
    && (forall u :: u in w.threads && u != t && Pushing(w.threads[u]) ==> !Targets(w'.threads[t], w.threads[u].node))
    && (forall u, n :: u in w.threads && u != t && Targets(w.threads[u], n) && n in w'.chain ==>
          n in w.chain && n in w.heap && n in w'.heap && w'.heap[n] == w.heap[n])
    && |w.history| <= |w'.history|
    && (forall i :: 0 <= i < |w.history| ==> w'.history[i] == w.history[i])
  }

  lemma OthersOk<T(!new)>(w: World<T>, w': World<T>, t: Tid, u: Tid)
    requires Undisturbed(w, w', t) && u in w.threads && u != t && ThreadOk(w, u)
    ensures ThreadOk(w', u)
  {
  }

  lemma Assemble<T(!new)>(w: World<T>, w': World<T>, t: Tid)
    requires Inv(w) && t in w.threads && Undisturbed(w, w', t)
    requires NodesOk(w') && ThreadOk(w', t) && CallsOk(w')
    requires Replay(w'.history) == Some(Values(w'.heap, w'.chain))
    requires w'.stats.allocations == Descended(|w'.chain|)
    ensures Inv(w')
  {
    forall u | u in w'.threads ensures ThreadOk(w', u) {
      if u != t {
        OthersOk(w, w', t, u);
      }
    }
  }

  ghost predicate Moves<T>(w: World<T>, w': World<T>, t: Tid, pc: Pc<T>) {
    && t in w.threads
    && !w.threads[t].PopTaken? && !pc.PopTaken?
    && Owns(pc) == Owns(w.threads[t]) && (Owns(pc) ==> pc.node == w.threads[t].node)
    && (pc.PopLoaded? || pc.PopRead? ==> pc.target in w.chain || Targets(w.threads[t], pc.target))
    && w' == w.(threads := w.threads[t := pc], stats := w.stats.(contention := w'.stats.contention))
  }

  lemma MoveKeepsNodes<T(!new)>(w: World<T>, w': World<T>, t: Tid, pc: Pc<T>)
    requires NodesOk(w) && CallsOk(w) && Moves(w, w', t, pc)
    ensures NodesOk(w') && CallsOk(w')
  {
    assert Linked(w'.heap, w'.head, w'.chain);
    CallsKept(w, w', t);
  }

  lemma MoveUndisturbed<T(!new)>(w: World<T>, w': World<T>, t: Tid, pc: Pc<T>)
    requires Inv(w) && Moves(w, w', t, pc)
    ensures Undisturbed(w, w', t)
  {
    forall u | u in w.threads && u != t && Pushing(w.threads[u]) ensures !Targets(pc, w.threads[u].node) {
      assert ThreadOk(w, u);
    }
  }

  /** Thread `t` moved between two positions without touching the memory. */
  lemma LocalMove<T(!new)>(w: World<T>, w': World<T>, t: Tid, pc: Pc<T>)
    requires Inv(w) && Moves(w, w', t, pc) && ThreadOk(w', t)
    ensures Inv(w')
  {
    MoveKeepsNodes(w, w', t, pc);
    MoveUndisturbed(w, w', t, pc);
    Assemble(w, w', t);
  }

  /** Appending one event, with its return if the call ends at once. */
  lemma CallsAfter<T(!new)>(w: World<T>, w': World<T>, t: Tid)
    requires Inv(w) && t in w.threads && !w.threads[t].PopTaken?
    requires |w'.history| == |w.history| + 1 && forall i :: 0 <= i < |w.history| ==> w'.history[i] == w.history[i]
    requires w'.threads.Keys == w.threads.Keys && forall u :: u in w.threads && u != t ==> w'.threads[u] == w.threads[u]
    requires w'.threads[t].PopTaken? ==> w'.threads[t].lp == |w.history| && w'.calls == w.calls
    requires !w'.threads[t].PopTaken? ==>
               |w'.calls| == |w.calls| + 1 && (forall k :: 0 <= k < |w.calls| ==> w'.calls[k] == w.calls[k])
               && w'.calls[|w.calls|].lp == |w.history| && CallOk(w', w'.calls[|w.calls|])
    ensures CallsOk(w')
  {
    forall k | 0 <= k < |w'.calls| ensures CallOk(w', w'.calls[k]) {
      if k < |w.calls| {
        assert CallOk(w, w.calls[k]);
      }
    }
    forall u | u in w.threads && w.threads[u].PopTaken? ensures w.threads[u].lp < |w.history| {
      assert ThreadOk(w, u);
    }
    NewEventIsApart(w, w', t);
    EventsAfter(w, w', t);
  }

  lemma EventsAfter<T(!new)>(w: World<T>, w': World<T>, t: Tid)
    requires CallsOk(w) && t in w.threads && !w.threads[t].PopTaken? && |w'.history| == |w.history| + 1
    requires w'.threads.Keys == w.threads.Keys && forall u :: u in w.threads && u != t ==> w'.threads[u] == w.threads[u]
    requires w'.threads[t].PopTaken? ==> w'.threads[t].lp == |w.history| && w'.calls == w.calls
    requires !w'.threads[t].PopTaken? ==>
               |w'.calls| == |w.calls| + 1 && (forall k :: 0 <= k < |w.calls| ==> w'.calls[k] == w.calls[k])
               && w'.calls[|w.calls|].lp == |w.history|
    ensures forall i :: 0 <= i < |w'.history| ==> OfACall(w', i)
  {
    forall i | 0 <= i < |w'.history| ensures OfACall(w', i) {
      if i < |w.history| {
        assert OfACall(w, i);
        if k :| 0 <= k < |w.calls| && w.calls[k].lp == i {
          assert w'.calls[k].lp == i;
        }
      } else if w'.threads[t].PopTaken? {
        assert w'.threads[t].lp == i;
      } else {
        assert w'.calls[|w.calls|].lp == i;
      }
    }
  }

  /** The new event is nobody else's. */
  lemma NewEventIsApart<T(!new)>(w: World<T>, w': World<T>, t: Tid)
    requires CallsOk(w) && t in w.threads && !w.threads[t].PopTaken?
    requires forall u :: u in w.threads && w.threads[u].PopTaken? ==> w.threads[u].lp < |w.history|
    requires w'.threads.Keys == w.threads.Keys && forall u :: u in w.threads && u != t ==> w'.threads[u] == w.threads[u]
    requires w'.threads[t].PopTaken? ==> w'.threads[t].lp == |w.history| && w'.calls == w.calls
    requires !w'.threads[t].PopTaken? ==>
               |w'.calls| == |w.calls| + 1 && (forall k :: 0 <= k < |w.calls| ==> w'.calls[k] == w.calls[k])
               && w'.calls[|w.calls|].lp == |w.history|
    ensures forall j, k :: 0 <= j < k < |w'.calls| ==> w'.calls[j].lp != w'.calls[k].lp
    ensures forall k, u :: 0 <= k < |w'.calls| && u in w'.threads && w'.threads[u].PopTaken? ==>
              w'.calls[k].lp != w'.threads[u].lp
    ensures forall u, v :: u in w'.threads && v in w'.threads && u != v
                           && w'.threads[u].PopTaken? && w'.threads[v].PopTaken? ==>
              w'.threads[u].lp != w'.threads[v].lp
  {
    forall k | 0 <= k < |w.calls| ensures w.calls[k].lp < |w.history| {
      assert CallOk(w, w.calls[k]);
    }
  }

  lemma MissedNodes<T(!new)>(w: World<T>, t: Tid, since: nat)
    requires NodesOk(w) && t in w.threads && !Owns(w.threads[t])
    ensures NodesOk(Missed(w, t, since)) && Undisturbed(w, Missed(w, t, since), t)
  {
  }

  lemma MissedKeepsInv<T(!new)>(w: World<T>, t: Tid, since: nat)
    requires Inv(w) && t in w.threads && !Owns(w.threads[t]) && w.head == None && since <= |w.history|
    ensures Inv(Missed(w, t, since))
  {
    var w' := Missed(w, t, since);
    assert w.chain == [];
    ReplayAppend(w.history, Empty(t), []);
    CallsAfter(w, w', t);
    MissedNodes(w, t, since);
    Assemble(w, w', t);
  }

  // ----- each action keeps the invariant -----

  /** The stack depends on the stacked nodes only. */
  lemma LinkedFrame<T>(heap: map<Nid, Node<T>>, heap': map<Nid, Node<T>>, head: Option<Nid>, chain: seq<Nid>)
    requires Linked(heap, head, chain)
    requires forall n :: n in chain ==> n in heap && n in heap' && heap'[n] == heap[n]
    ensures Linked(heap', head, chain)
    ensures Values(heap', chain) == Values(heap, chain)
  {
    forall i | 0 <= i < |chain|
      ensures chain[i] in heap' && heap'[chain[i]] == heap[chain[i]] && LinksTo(heap', chain, i)
    {
      assert chain[i] in chain && LinksTo(heap, chain, i);
    }
  }

  /** No event, no return, no change in who is between CAS and return. */
  lemma CallsKept<T(!new)>(w: World<T>, w': World<T>, t: Tid)
    requires CallsOk(w) && t in w.threads && w'.history == w.history && w'.calls == w.calls
    requires w'.threads.Keys == w.threads.Keys && forall u :: u in w.threads && u != t ==> w'.threads[u] == w.threads[u]
    requires !w.threads[t].PopTaken? && !w'.threads[t].PopTaken?
    ensures CallsOk(w')
  {
    forall k | 0 <= k < |w'.calls| ensures CallOk(w', w'.calls[k]) {
      assert CallOk(w, w.calls[k]);
    }
    forall i | 0 <= i < |w'.history| ensures OfACall(w', i) {
      assert OfACall(w, i);
      if u :| u in w.threads && w.threads[u].PopTaken? && w.threads[u].lp == i {
        assert w'.threads[u].lp == i;
      }
    }
  }

  lemma BeginPushNodes<T(!new)>(w: World<T>, t: Tid, value: T, id: Nid)
    requires NodesOk(w) && Enabled(w, BeginPush(t, value, id)) && ThreadOk(w, t)
    ensures var w' := BeginPushNext(w, t, value, id);
            NodesOk(w') && Values(w'.heap, w'.chain) == Values(w.heap, w.chain)
  {
    var w' := BeginPushNext(w, t, value, id);
    assert id !in w.heap && id !in w.priv;
    LinkedFrame(w.heap, w'.heap, w.head, w.chain);
  }

  lemma BeginPushUndisturbed<T(!new)>(w: World<T>, t: Tid, value: T, id: Nid)
    requires NodesOk(w) && Enabled(w, BeginPush(t, value, id))
    ensures Undisturbed(w, BeginPushNext(w, t, value, id), t)
    ensures Untargeted(BeginPushNext(w, t, value, id).threads, id)
  {
    assert id !in w.heap && id !in w.priv;
  }

  lemma BeginPushKeepsInv<T(!new)>(w: World<T>, t: Tid, value: T, id: Nid)
    requires Inv(w) && Enabled(w, BeginPush(t, value, id))
    ensures Inv(BeginPushNext(w, t, value, id))
  {
    var w' := BeginPushNext(w, t, value, id);
    assert ThreadOk(w, t);
    BeginPushNodes(w, t, value, id);
    BeginPushUndisturbed(w, t, value, id);
    CallsKept(w, w', t);
    assert ThreadOk(w', t);
    Assemble(w, w', t);
  }

  lemma PushStoreNodes<T(!new)>(w: World<T>, t: Tid)
    requires NodesOk(w) && Enabled(w, PushStore(t)) && ThreadOk(w, t)
    ensures var w' := PushStoreNext(w, t);
            && NodesOk(w') && ThreadOk(w', t) && Undisturbed(w, w', t)
            && Values(w'.heap, w'.chain) == Values(w.heap, w.chain)
  {
    LinkedFrame(w.heap, PushStoreNext(w, t).heap, w.head, w.chain);
  }

  lemma PushStoreKeepsInv<T(!new)>(w: World<T>, t: Tid)
    requires Inv(w) && Enabled(w, PushStore(t))
    ensures Inv(PushStoreNext(w, t))
  {
    var w' := PushStoreNext(w, t);
    assert ThreadOk(w, t);
    PushStoreNodes(w, t);
    CallsKept(w, w', t);
    Assemble(w, w', t);
  }

  lemma LinkedCons<T>(heap: map<Nid, Node<T>>, head: Option<Nid>, chain: seq<Nid>, n: Nid)
    requires Linked(heap, head, chain)
    requires n in heap && n !in chain && heap[n].next == head
    ensures Linked(heap, Some(n), [n] + chain)
    ensures Values(heap, [n] + chain) == [heap[n].data] + Values(heap, chain)
  {
    var c := [n] + chain;
    forall i | 0 <= i < |c| ensures c[i] in heap && LinksTo(heap, c, i) {
      if i > 0 {
        assert c[i] == chain[i - 1] && LinksTo(heap, chain, i - 1);
      }
    }
  }

  lemma LinkedTail<T>(heap: map<Nid, Node<T>>, head: Option<Nid>, chain: seq<Nid>)
    requires Linked(heap, head, chain) && chain != []
    ensures Linked(heap, heap[chain[0]].next, chain[1..])
    ensures Values(heap, chain[1..]) == Values(heap, chain)[1..]
    ensures chain[0] !in chain[1..]
  {
    assert LinksTo(heap, chain, 0);
    forall i | 0 <= i < |chain| - 1 ensures chain[1..][i] in heap && LinksTo(heap, chain[1..], i) {
      assert chain[1..][i] == chain[i + 1] && LinksTo(heap, chain, i + 1);
    }
  }

  lemma PushWinsNodes<T(!new)>(w: World<T>, t: Tid)
    requires NodesOk(w) && Enabled(w, PushCas(t, false)) && ThreadOk(w, t) && w.head == w.threads[t].seen
    ensures NodesOk(PushCasNext(w, t, false))
  {
    LinkedCons(w.heap, w.head, w.chain, w.threads[t].node);
  }

  /** Nobody else has the published node, as its own or as a target. */
  lemma PushWinsElsewhere<T(!new)>(w: World<T>, t: Tid)
    requires NodesOk(w) && Enabled(w, PushCas(t, false)) && ThreadOk(w, t)
    ensures forall n :: n in w.priv && w.priv[n] != t ==> n != w.threads[t].node && n in w.heap
    ensures forall u, n :: u in w.threads && Targets(w.threads[u], n) && n in [w.threads[t].node] + w.chain ==>
              n in w.chain && n in w.heap
  {
    var node := w.threads[t].node;
    forall u, n | u in w.threads && Targets(w.threads[u], n) && n in [node] + w.chain
      ensures n in w.chain && n in w.heap
    {
      assert !Targets(w.threads[u], node);
      assert n in w.chain;
    }
  }

  lemma PushWinsUndisturbed<T(!new)>(w: World<T>, t: Tid)
    requires NodesOk(w) && Enabled(w, PushCas(t, false)) && ThreadOk(w, t) && w.head == w.threads[t].seen
    ensures Undisturbed(w, PushCasNext(w, t, false), t)
  {
    PushWinsElsewhere(w, t);
  }

  lemma PushWinsReplay<T(!new)>(w: World<T>, t: Tid)
    requires NodesOk(w) && Enabled(w, PushCas(t, false)) && ThreadOk(w, t) && w.head == w.threads[t].seen
    requires Replay(w.history) == Some(Values(w.heap, w.chain))
    ensures var w' := PushCasNext(w, t, false);
            NodesOk(w') && Replay(w'.history) == Some(Values(w'.heap, w'.chain))
  {
    var node := w.threads[t].node;
    PushWinsNodes(w, t);
    LinkedCons(w.heap, w.head, w.chain, node);
    ReplayAppend(w.history, Pushed(t, w.heap[node].data), Values(w.heap, w.chain));
  }

  lemma PushWinsCalls<T(!new)>(w: World<T>, t: Tid)
    requires Inv(w) && Enabled(w, PushCas(t, false)) && w.head == w.threads[t].seen
    ensures CallsOk(PushCasNext(w, t, false))
  {
    var w' := PushCasNext(w, t, false);
    assert ThreadOk(w, t);
    CallsAfter(w, w', t);
  }

  lemma PushWinsThread<T(!new)>(w: World<T>, t: Tid)
    requires Enabled(w, PushCas(t, false)) && w.head == w.threads[t].seen
    requires w.stats.allocations == Descended(|w.chain|)
    ensures var w' := PushCasNext(w, t, false);
            t in w'.threads && ThreadOk(w', t) && w'.stats.allocations == Descended(|w'.chain|)
  {
  }

  lemma PushWins<T(!new)>(w: World<T>, t: Tid)
    requires Inv(w) && Enabled(w, PushCas(t, false)) && w.head == w.threads[t].seen
    ensures Inv(PushCasNext(w, t, false))
  {
    assert ThreadOk(w, t);
    PushWinsUndisturbed(w, t);
    PushWinsReplay(w, t);
    PushWinsCalls(w, t);
    PushWinsThread(w, t);
    Assemble(w, PushCasNext(w, t, false), t);
  }

  lemma PopWinsNodes<T(!new)>(w: World<T>, t: Tid)
    requires NodesOk(w) && Enabled(w, PopCas(t, false)) && ThreadOk(w, t) && w.head == Some(w.threads[t].target)
    ensures w.chain != [] && w.threads[t].target == w.chain[0] && PopCasNext(w, t, false).chain == w.chain[1..]
    ensures NodesOk(PopCasNext(w, t, false))
  {
    PopWinsChain(w, t);
    var w' := PopCasNext(w, t, false);
    forall n | n in w.heap ensures n in w'.chain || n in w'.priv {
      if n in w.chain && n != w.chain[0] {
        assert n in w.chain[1..];
      }
    }
    assert forall i :: 0 <= i < |w'.chain| ==> w'.chain[i] == w.chain[i + 1];
    PopWinsPrivate(w, t);
  }

  lemma PopWinsPrivate<T(!new)>(w: World<T>, t: Tid)
    requires NodesOk(w) && Enabled(w, PopCas(t, false)) && ThreadOk(w, t) && w.head == Some(w.threads[t].target)
    ensures var w' := PopCasNext(w, t, false);
            forall n :: n in w'.priv ==>
              && n in w'.heap && n !in w'.chain
              && w'.priv[n] in w'.threads && Owns(w'.threads[w'.priv[n]]) && w'.threads[w'.priv[n]].node == n
  {
    PopWinsChain(w, t);
    var w' := PopCasNext(w, t, false);
    forall n | n in w'.priv ensures n in w'.heap && n !in w'.chain {
      assert n in w.chain[1..] ==> n in w.chain;
    }
  }

  lemma PopWinsChain<T(!new)>(w: World<T>, t: Tid)
    requires Linked(w.heap, w.head, w.chain) && Enabled(w, PopCas(t, false)) && ThreadOk(w, t)
    requires w.head == Some(w.threads[t].target)
    ensures w.chain != [] && w.threads[t].target == w.chain[0] && PopCasNext(w, t, false).chain == w.chain[1..]
    ensures Linked(w.heap, PopCasNext(w, t, false).head, w.chain[1..]) && w.chain[0] !in w.chain[1..]
  {
    assert w.threads[t].target == w.chain[0] && w.chain[0] in w.chain;
    LinkedTail(w.heap, w.head, w.chain);
  }

  lemma PopWinsUndisturbed<T(!new)>(w: World<T>, t: Tid)
    requires NodesOk(w) && Enabled(w, PopCas(t, false)) && ThreadOk(w, t) && w.head == Some(w.threads[t].target)
    ensures Undisturbed(w, PopCasNext(w, t, false), t)
  {
    PopWinsNodes(w, t);
    assert w.chain[0] !in w.priv;
  }

  lemma PopWinsReplay<T(!new)>(w: World<T>, t: Tid)
    requires NodesOk(w) && Enabled(w, PopCas(t, false)) && ThreadOk(w, t) && w.head == Some(w.threads[t].target)
    requires Replay(w.history) == Some(Values(w.heap, w.chain))
    ensures var w' := PopCasNext(w, t, false);
            NodesOk(w') && Replay(w'.history) == Some(Values(w'.heap, w'.chain))
  {
    PopWinsNodes(w, t);
    LinkedTail(w.heap, w.head, w.chain);
    ReplayAppend(w.history, Popped(t, w.heap[w.threads[t].target].data), Values(w.heap, w.chain));
  }

  lemma PopWinsCalls<T(!new)>(w: World<T>, t: Tid)
    requires Inv(w) && Enabled(w, PopCas(t, false)) && w.head == Some(w.threads[t].target)
    ensures CallsOk(PopCasNext(w, t, false))
  {
    var w' := PopCasNext(w, t, false);
    assert ThreadOk(w, t);
    CallsAfter(w, w', t);
  }

  lemma PopWins<T(!new)>(w: World<T>, t: Tid)
    requires Inv(w) && Enabled(w, PopCas(t, false)) && w.head == Some(w.threads[t].target)
    ensures Inv(PopCasNext(w, t, false))
  {
    var w' := PopCasNext(w, t, false);
    assert ThreadOk(w, t);
    PopWinsNodes(w, t);
    assert |w'.chain| == |w.chain| - 1;
    PopWinsUndisturbed(w, t);
    PopWinsReplay(w, t);
    PopWinsCalls(w, t);
    PopWinsThread(w, t);
    CountsUp(|w.chain| - 1);
    Assemble(w, w', t);
  }

  lemma CountsUp(n: nat)
    ensures Up(Descended(n + 1)) == Descended(n)
  {
  }

  lemma PopWinsThread<T(!new)>(w: World<T>, t: Tid)
    requires NodesOk(w) && Enabled(w, PopCas(t, false)) && ThreadOk(w, t) && w.head == Some(w.threads[t].target)
    ensures ThreadOk(PopCasNext(w, t, false), t)
  {
  }

  lemma PopFinishNodes<T(!new)>(w: World<T>, t: Tid)
    requires NodesOk(w) && Enabled(w, PopFinish(t)) && ThreadOk(w, t)
    ensures var w' := PopFinishNext(w, t);
            NodesOk(w') && Values(w'.heap, w'.chain) == Values(w.heap, w.chain)
  {
    LinkedFrame(w.heap, PopFinishNext(w, t).heap, w.head, w.chain);
  }

  lemma PopFinishUndisturbed<T(!new)>(w: World<T>, t: Tid)
    requires NodesOk(w) && Enabled(w, PopFinish(t)) && ThreadOk(w, t)
    ensures Undisturbed(w, PopFinishNext(w, t), t)
  {
    var w', node := PopFinishNext(w, t), w.threads[t].node;
    assert node !in w.chain;
    forall n | n in w.priv && w.priv[n] != t
      ensures n in w'.priv && w'.priv[n] == w.priv[n] && n in w.heap && n in w'.heap && w'.heap[n] == w.heap[n]
    {
      assert n != node;
    }
    forall n | n in w.chain ensures n in w.heap && n in w'.heap && w'.heap[n] == w.heap[n] {
      assert n != node;
    }
  }

  lemma PopFinishCalls<T(!new)>(w: World<T>, t: Tid)
    requires CallsOk(w) && Enabled(w, PopFinish(t)) && ThreadOk(w, t)
    ensures CallsOk(PopFinishNext(w, t))
  {
    var w' := PopFinishNext(w, t);
    forall k | 0 <= k < |w'.calls| ensures CallOk(w', w'.calls[k]) {
      if k < |w.calls| {
        assert CallOk(w, w.calls[k]);
      }
    }
    forall i | 0 <= i < |w'.history| ensures OfACall(w', i) {
      assert OfACall(w, i);
      if k :| 0 <= k < |w.calls| && w.calls[k].lp == i {
        assert w'.calls[k].lp == i;
      } else {
        var u :| u in w.threads && w.threads[u].PopTaken? && w.threads[u].lp == i;
        if u == t {
          assert w'.calls[|w.calls|].lp == i;
        } else {
          assert w'.threads[u].lp == i;
        }
      }
    }
  }

  lemma PopFinishKeepsInv<T(!new)>(w: World<T>, t: Tid)
    requires Inv(w) && Enabled(w, PopFinish(t))
    ensures Inv(PopFinishNext(w, t))
  {
    assert ThreadOk(w, t);
    PopFinishNodes(w, t);
    PopFinishUndisturbed(w, t);
    PopFinishCalls(w, t);
    Assemble(w, PopFinishNext(w, t), t);
  }

  lemma PushActionKeepsInv<T(!new)>(w: World<T>, a: Action<T>)
    requires Inv(w) && Enabled(w, a) && (a.BeginPush? || a.PushLoad? || a.PushStore? || a.PushCas?)
    ensures Inv(Next(w, a))
  {
    var t := a.t;
    var pc := w.threads[t];
    assert ThreadOk(w, t);
    match a
    case BeginPush(_, value, id) => BeginPushKeepsInv(w, t, value, id);
    case PushLoad(_) => LocalMove(w, Next(w, a), t, PushLoaded(pc.node, w.head, pc.value, pc.since));
    case PushStore(_) => PushStoreKeepsInv(w, t);
    case PushCas(_, spurious) =>
      if w.head == pc.seen && !spurious {
        PushWins(w, t);
      } else {
        LocalMove(w, Next(w, a), t, PushReady(pc.node, pc.value, pc.since));
      }
    case _ =>
  }

  lemma PopLoadKeepsInv<T(!new)>(w: World<T>, t: Tid)
    requires Inv(w) && Enabled(w, PopLoad(t))
    ensures Inv(PopLoadNext(w, t))
  {
    var since := w.threads[t].since;
    assert ThreadOk(w, t);
    if w.head.None? {
      MissedKeepsInv(w, t, since);
    } else {
      assert w.head.value == w.chain[0];
      LocalMove(w, PopLoadNext(w, t), t, PopLoaded(w.head.value, since));
    }
  }

  lemma PopActionKeepsInv<T(!new)>(w: World<T>, a: Action<T>)
    requires Inv(w) && Enabled(w, a) && !(a.BeginPush? || a.PushLoad? || a.PushStore? || a.PushCas?)
    ensures Inv(Next(w, a))
  {
    var t := a.t;
    var pc := w.threads[t];
    assert ThreadOk(w, t);
    match a
    case BeginPop(_) =>
      if w.head.None? {
        MissedKeepsInv(w, t, |w.history|);
      } else {
        LocalMove(w, Next(w, a), t, PopLoop(|w.history|));
      }
    case PopLoad(_) => PopLoadKeepsInv(w, t);
    case PopReadNext(_, garbage) =>
      LocalMove(w, Next(w, a), t, Next(w, a).threads[t]);
    case PopCas(_, spurious) =>
      if w.head == Some(pc.target) && !spurious {
        PopWins(w, t);
      } else {
        LocalMove(w, Next(w, a), t, PopLoop(pc.since));
      }
    case PopFinish(_) => PopFinishKeepsInv(w, t);
    case _ =>
  }

  lemma NextKeepsInv<T(!new)>(w: World<T>, a: Action<T>)
    requires Inv(w) && Enabled(w, a)
    ensures Inv(Next(w, a))
  {
    if a.BeginPush? || a.PushLoad? || a.PushStore? || a.PushCas? {
      PushActionKeepsInv(w, a);
    } else {
      PopActionKeepsInv(w, a);
    }
  }

  /** On a pool, `allocations` is minus the number of stacked values, modulo 2^64. */
  lemma {:induction false} BelowIsNegation(n: nat)
    ensures (Descended(n) + n) % WORD == 0
  {
    if n > 0 {
      BelowIsNegation(n - 1);
      var m := Descended(n - 1) + n - 1;
      if Descended(n - 1) == 0 {
        assert Descended(n) + n == m + WORD;
        ModPlusOne(m, WORD);
      }
    }
  }

  // ----- whole runs -----

  ghost predicate IsRun<T(!new)>(trace: seq<World<T>>, acts: seq<Action<T>>) {
    && |trace| == |acts| + 1
    && Init(trace[0])
    && forall i {:trigger Steps(trace, acts, i)} :: 0 < i < |trace| ==> Steps(trace, acts, i)
  }

  /** State `i` of a run comes from the one before it by one step. */
  ghost predicate Steps<T(!new)>(trace: seq<World<T>>, acts: seq<Action<T>>, i: nat)
    requires 0 < i < |trace| == |acts| + 1
  {
    Enabled(trace[i - 1], acts[i - 1]) && trace[i] == Next(trace[i - 1], acts[i - 1])
  }

  lemma {:induction false} RunKeepsInv<T(!new)>(trace: seq<World<T>>, acts: seq<Action<T>>, i: nat)
    requires IsRun(trace, acts) && i < |trace|
    ensures Inv(trace[i])
  {
    if i == 0 {
      InitInv(trace[0]);
    } else {
      RunKeepsInv(trace, acts, i - 1);
      assert Steps(trace, acts, i);
      NextKeepsInv(trace[i - 1], acts[i - 1]);
    }
  }

  /** The history is a legal run of an atomic stack that ends with exactly the
      stacked values, and every finished call took effect at an event of its
      own, by its own thread, inside its own interval and with its own argument
      or result.  There are no other events, except that of a pop which has
      taken its node and is about to return. */
  ghost predicate Linearizable<T(!new)>(w: World<T>) {
    && Linked(w.heap, w.head, w.chain)
    && Replay(w.history) == Some(Values(w.heap, w.chain))
    && CallsOk(w)
  }

  lemma InvMeaning<T(!new)>(w: World<T>)
    requires Inv(w)
    ensures Linearizable(w)
    ensures PushedValues(w.history) == PoppedValues(w.history) + multiset(Values(w.heap, w.chain))
    ensures w.stats.allocations == Descended(|w.chain|)
  {
    Conservation(w.history);
  }

  lemma EveryInterleavingIsAStack<T(!new)>(trace: seq<World<T>>, acts: seq<Action<T>>, i: nat)
    requires IsRun(trace, acts) && i < |trace|
    ensures Linearizable(trace[i])
    ensures PushedValues(trace[i].history)
         == PoppedValues(trace[i].history) + multiset(Values(trace[i].heap, trace[i].chain))
    ensures trace[i].stats.allocations == Descended(|trace[i].chain|)
  {
    RunKeepsInv(trace, acts, i);
    InvMeaning(trace[i]);
  }

  // ----- dropping the pool -----

  /** When no call is running, the live nodes are exactly the stacked ones. */
  lemma QuiescentHeapIsStack<T(!new)>(w: World<T>)
    requires Inv(w) && forall t :: t in w.threads ==> w.threads[t].Idle?
    ensures w.heap.Keys == set n | n in w.chain
  {
    forall n ensures n in w.heap <==> n in w.chain {
    }
  }

  class PoolInner<T> {
    var heap: map<Nid, Node<T>>
    var head: Option<Nid>

    constructor (heap: map<Nid, Node<T>>, head: Option<Nid>)
      ensures this.heap == heap && this.head == head
    {
      this.heap, this.head := heap, head;
    }

    /** The destructor's walk frees every remaining node exactly once, drops
        its value, and leaves nothing behind. */
    method Drop(ghost chain: seq<Nid>) returns (freed: seq<Nid>, dropped: seq<T>)
      requires Linked(heap, head, chain) && heap.Keys == set n | n in chain
      modifies this
      ensures freed == chain && dropped == Values(old(heap), chain)
      ensures heap == map[]
    {
      freed, dropped := [], [];
      var cur := head;
      while cur.Some?
        invariant Walking(old(heap), heap, cur, chain, |freed|)
        invariant freed == chain[..|freed|] && |dropped| == |freed|
        invariant forall j :: 0 <= j < |dropped| ==> dropped[j] == Values(old(heap), chain)[j]
        decreases |chain| - |freed|
      {
        WalkStep(old(heap), old(head), heap, cur, chain, |freed|);
        freed, dropped := freed + [cur.value], dropped + [heap[cur.value].data];
        cur, heap := heap[cur.value].next, heap - {cur.value};
      }
      WalkEnds(old(heap), heap, chain, |freed|);
    }
  }

  /** The walk stands at the `i`th node of the stack and has freed those before it. */
  ghost predicate Walking<T>(start: map<Nid, Node<T>>, heap: map<Nid, Node<T>>, cur: Option<Nid>,
                             chain: seq<Nid>, i: nat) {
    && i <= |chain| && cur == At(chain, i)
    && (forall j :: 0 <= j < |chain| ==> chain[j] in start && (chain[j] in heap <==> i <= j))
    && (forall j :: i <= j < |chain| ==> heap[chain[j]] == start[chain[j]])
    && (forall n :: n in heap ==> n in chain)
  }

  lemma WalkStep<T>(start: map<Nid, Node<T>>, head: Option<Nid>, heap: map<Nid, Node<T>>, cur: Option<Nid>,
                    chain: seq<Nid>, i: nat)
    requires Linked(start, head, chain) && Walking(start, heap, cur, chain, i) && cur.Some?
    ensures i < |chain| && cur.value == chain[i] && chain[i] in heap && heap[chain[i]] == start[chain[i]]
    ensures Walking(start, heap - {cur.value}, heap[cur.value].next, chain, i + 1)
  {
    assert LinksTo(start, chain, i);
  }

  lemma WalkEnds<T>(start: map<Nid, Node<T>>, heap: map<Nid, Node<T>>, chain: seq<Nid>, i: nat)
    requires Walking(start, heap, None, chain, i)
    ensures i == |chain| && heap == map[]
  {
  }
}
