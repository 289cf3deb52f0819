/** What callers of the pool can rely on in every interleaving. */
module LockFreePoolRuns {
  import opened LockFreePool
  import opened LockFreePoolSafety
  import opened LockFreePoolAccounts

  lemma RunStep<T(!new)>(trace: seq<World<T>>, acts: seq<Action<T>>, i: nat)
    requires IsRun(trace, acts) && 0 < i < |trace|
    ensures Enabled(trace[i - 1], acts[i - 1]) && trace[i] == Next(trace[i - 1], acts[i - 1])
  {
    assert Steps(trace, acts, i);
  }

  lemma MadeUpTo<T(!new)>(trace: seq<World<T>>, acts: seq<Action<T>>, i: nat, t: Tid)
    requires |trace| == |acts| + 1 && 0 < i < |trace|
    ensures Made(trace, acts[..i], t) == Made(trace, acts[..i - 1], t) + MadeNow(trace[i - 1], acts[i - 1], t)
  {
    assert acts[..i][..i - 1] == acts[..i - 1];
  }

  lemma AccountAfter<T(!new)>(w: World<T>, a: Action<T>, w': World<T>, t: Tid)
    requires Enabled(w, a) && w' == Next(w, a)
    ensures Account(w', t) == Account(w, t) + MadeNow(w, a, t)
  {
    NextAccounts(w, a, t);
  }

  lemma InitAccount<T(!new)>(w: World<T>, t: Tid)
    requires Init(w)
    ensures Account(w, t) == []
  {
  }

  /** Thread by thread and in order, the calls returned and the one running are
      the calls made, with their arguments and starting moments. */
  lemma {:induction false} EveryCallIsAccountedFor<T(!new)>(trace: seq<World<T>>, acts: seq<Action<T>>, i: nat, t: Tid)
    requires IsRun(trace, acts) && i < |trace|
    ensures Account(trace[i], t) == Made(trace, acts[..i], t)
  {
    if i == 0 {
      InitAccount(trace[0], t);
    } else {
      EveryCallIsAccountedFor(trace, acts, i - 1, t);
      RunStep(trace, acts, i);
      AccountAfter(trace[i - 1], acts[i - 1], trace[i], t);
      MadeUpTo(trace, acts, i, t);
    }
  }

  lemma {:induction false} RunBalanced<T(!new)>(trace: seq<World<T>>, acts: seq<Action<T>>, i: nat)
    requires IsRun(trace, acts) && i < |trace|
    ensures Balanced(trace[i])
  {
    if i == 0 {
      InitBalanced(trace[0]);
    } else {
      RunBalanced(trace, acts, i - 1);
      BalancedAt(trace, acts, i);
    }
  }

  lemma BalancedAt<T(!new)>(trace: seq<World<T>>, acts: seq<Action<T>>, i: nat)
    requires IsRun(trace, acts) && 0 < i < |trace| && Balanced(trace[i - 1])
    ensures Balanced(trace[i])
  {
    StepAt(trace, acts, i);
    BalancedAfter(trace[i - 1], acts[i - 1], trace[i]);
  }

  lemma StepAt<T(!new)>(trace: seq<World<T>>, acts: seq<Action<T>>, i: nat)
    requires IsRun(trace, acts) && 0 < i < |trace|
    ensures Inv(trace[i - 1]) && Enabled(trace[i - 1], acts[i - 1]) && trace[i] == Next(trace[i - 1], acts[i - 1])
  {
    RunStep(trace, acts, i);
    RunKeepsInv(trace, acts, i - 1);
  }

  lemma BalancedAfter<T(!new)>(w: World<T>, a: Action<T>, w': World<T>)
    requires Inv(w) && Balanced(w) && Enabled(w, a) && w' == Next(w, a)
    ensures Balanced(w')
  {
    NextBalanced(w, a);
  }

  /** In every interleaving, the values given to pushes that have returned are
      exactly the values returned by pops, held by pops about to return, and
      still stacked. */
  lemma ValuesAreConserved<T(!new)>(trace: seq<World<T>>, acts: seq<Action<T>>, i: nat)
    requires IsRun(trace, acts) && i < |trace|
    ensures var w := trace[i];
            && Linked(w.heap, w.head, w.chain)
            && PushArguments(w.calls) ==
                 PopResults(w.calls) + Held(w, w.threads.Keys) + multiset(Values(w.heap, w.chain))
  {
    RunKeepsInv(trace, acts, i);
    RunBalanced(trace, acts, i);
    InvMeaning(trace[i]);
  }
}
