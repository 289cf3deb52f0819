/** The pool seen by its callers: the calls that were made are the calls that
    took effect, and no value is invented, lost or returned twice. */
module LockFreePoolAccounts {
  import opened Options
  import opened LockFreePool
  import opened LockFreePoolSafety

  // ----- the calls are the ones that were made -----

  /** A call as its caller sees it begin: the argument, and how much had happened. */
  datatype Call<T> = PushCall(value: T, since: nat) | PopCall(since: nat)

  function MadeNow<T>(w: World<T>, a: Action<T>, t: Tid): seq<Call<T>> {
    if a.t != t then []
    else if a.BeginPush? then [PushCall(a.value, |w.history|)]
    else if a.BeginPop? then [PopCall(|w.history|)]
    else []
  }

  /** The calls that thread `t` has made. */
  function Made<T>(trace: seq<World<T>>, acts: seq<Action<T>>, t: Tid): seq<Call<T>>
    requires |trace| > |acts|
    decreases |acts|
  {
    if acts == [] then []
    else
      var n := |acts| - 1;
      Made(trace, acts[..n], t) + MadeNow(trace[n], acts[n], t)
  }

  function CallOf<T>(r: Return<T>): Call<T> {
    if r.PushReturn? then PushCall(r.value, r.since) else PopCall(r.since)
  }

  /** The calls of `t` that have returned. */
  function Returned<T>(calls: seq<Return<T>>, t: Tid): seq<Call<T>> {
    if calls == [] then []
    else
      var last := calls[|calls| - 1];
      Returned(calls[..|calls| - 1], t) + if last.t == t then [CallOf(last)] else []
  }

  /** The call that `t` is in, if any. */
  function Running<T>(w: World<T>, t: Tid): seq<Call<T>> {
    if t !in w.threads || w.threads[t].Idle? then []
    else if Pushing(w.threads[t]) then [PushCall(w.threads[t].value, w.threads[t].since)]
    else [PopCall(w.threads[t].since)]
  }

  function Account<T>(w: World<T>, t: Tid): seq<Call<T>> {
    Returned(w.calls, t) + Running(w, t)
  }

  lemma ReturnedAppend<T>(calls: seq<Return<T>>, r: Return<T>, t: Tid)
    ensures Returned(calls + [r], t) == Returned(calls, t) + if r.t == t then [CallOf(r)] else []
  {
    assert (calls + [r])[..|calls|] == calls;
  }

  /** A step by `t` that returns nothing. */
  lemma MoveAccounts<T>(w: World<T>, w': World<T>, t: Tid, u: Tid)
    requires t in w.threads && t in w'.threads && w'.threads == w.threads[t := w'.threads[t]] && w'.calls == w.calls
    ensures u != t || Running(w', t) == Running(w, t) ==> Account(w', u) == Account(w, u)
  {
  }

  /** A step by `t` that returns from the call it is in. */
  lemma ReturnAccounts<T>(w: World<T>, w': World<T>, t: Tid, r: Return<T>, u: Tid)
    requires t in w.threads && r.t == t && w'.threads == w.threads[t := Idle] && w'.calls == w.calls + [r]
    requires Running(w, t) == [CallOf(r)]
    ensures Account(w', u) == Account(w, u)
  {
    ReturnedAppend(w.calls, r, u);
  }

  lemma BeginAccounts<T>(w: World<T>, a: Action<T>, u: Tid)
    requires Enabled(w, a) && (a.BeginPush? || a.BeginPop?)
    ensures Account(Next(w, a), u) == Account(w, u) + MadeNow(w, a, u)
  {
    if a.BeginPop? && w.head.None? {
      AtOnceAccounts(w, Next(w, a), a.t, PopReturn(a.t, |w.history|, |w.history|, None), u);
    } else {
      StartAccounts(w, Next(w, a), a.t, u);
    }
  }

  /** A call by `t` that returns in its first step. */
  lemma AtOnceAccounts<T>(w: World<T>, w': World<T>, t: Tid, r: Return<T>, u: Tid)
    requires t in w.threads && w.threads[t].Idle? && r.t == t
    requires w'.threads == w.threads[t := Idle] && w'.calls == w.calls + [r]
    ensures Account(w', u) == Account(w, u) + if u == t then [CallOf(r)] else []
  {
    ReturnedAppend(w.calls, r, u);
  }

  /** A call by `t` that goes on. */
  lemma StartAccounts<T>(w: World<T>, w': World<T>, t: Tid, u: Tid)
    requires t in w.threads && w.threads[t].Idle? && t in w'.threads
    requires w'.threads == w.threads[t := w'.threads[t]] && w'.calls == w.calls
    ensures Account(w', u) == Account(w, u) + if u == t then Running(w', t) else []
  {
  }

  lemma NextAccounts<T>(w: World<T>, a: Action<T>, u: Tid)
    requires Enabled(w, a)
    ensures Account(Next(w, a), u) == Account(w, u) + MadeNow(w, a, u)
  {
    if a.BeginPush? || a.BeginPop? {
      BeginAccounts(w, a, u);
    } else if |Next(w, a).calls| > |w.calls| {
      LastStepAccounts(w, a, u);
    } else {
      InnerStepAccounts(w, a, u);
    }
  }

  lemma LastStepAccounts<T>(w: World<T>, a: Action<T>, u: Tid)
    requires Enabled(w, a) && !a.BeginPush? && !a.BeginPop? && |Next(w, a).calls| > |w.calls|
    ensures Account(Next(w, a), u) == Account(w, u)
  {
    var w' := Next(w, a);
    ReturnAccounts(w, w', a.t, w'.calls[|w.calls|], u);
  }

  lemma InnerStepAccounts<T>(w: World<T>, a: Action<T>, u: Tid)
    requires Enabled(w, a) && !a.BeginPush? && !a.BeginPop? && |Next(w, a).calls| <= |w.calls|
    ensures Account(Next(w, a), u) == Account(w, u)
  {
    MoveAccounts(w, Next(w, a), a.t, u);
  }

  // ----- conservation of arguments and results -----

  /** The arguments of the pushes that have returned. */
  function PushArguments<T>(calls: seq<Return<T>>): multiset<T> {
    if calls == [] then multiset{}
    else
      var last := calls[|calls| - 1];
      PushArguments(calls[..|calls| - 1]) + if last.PushReturn? then multiset{last.value} else multiset{}
  }

  /** The values that pops have returned. */
  function PopResults<T>(calls: seq<Return<T>>): multiset<T> {
    if calls == [] then multiset{}
    else
      var last := calls[|calls| - 1];
      PopResults(calls[..|calls| - 1]) +
      if last.PopReturn? && last.result.Some? then multiset{last.result.value} else multiset{}
  }

  /** What a pop has taken from the stack and not returned yet. */
  function HeldBy<T>(w: World<T>, t: Tid): multiset<T> {
    if t in w.threads && w.threads[t].PopTaken? && w.threads[t].node in w.heap
    then multiset{w.heap[w.threads[t].node].data} else multiset{}
  }

  ghost function Held<T>(w: World<T>, ts: set<Tid>): multiset<T> {
    if ts == {} then multiset{}
    else
      var t :| t in ts;
      HeldBy(w, t) + Held(w, ts - {t})
  }

  /** The order in which threads are added up does not matter. */
  lemma {:induction false} HeldSplit<T>(w: World<T>, ts: set<Tid>, t: Tid)
    requires t in ts
    ensures Held(w, ts) == HeldBy(w, t) + Held(w, ts - {t})
  {
    var u :| u in ts && Held(w, ts) == HeldBy(w, u) + Held(w, ts - {u});
    if u != t {
      HeldSplit(w, ts - {u}, t);
      HeldSplit(w, ts - {t}, u);
      assert ts - {u} - {t} == ts - {t} - {u};
    }
  }

  lemma {:induction false} HeldSame<T>(w: World<T>, w': World<T>, ts: set<Tid>)
    requires forall t :: t in ts ==> HeldBy(w', t) == HeldBy(w, t)
    ensures Held(w', ts) == Held(w, ts)
  {
    if ts != {} {
      var t :| t in ts;
      HeldSame(w, w', ts - {t});
      HeldSplit(w, ts, t);
      HeldSplit(w', ts, t);
    }
  }

  /** Only the acting thread's part changes. */
  lemma HeldStep<T>(w: World<T>, w': World<T>, t: Tid)
    requires t in w.threads && w'.threads.Keys == w.threads.Keys
    requires forall u :: u in w.threads && u != t ==> HeldBy(w', u) == HeldBy(w, u)
    ensures Held(w', w'.threads.Keys) + HeldBy(w, t) == Held(w, w.threads.Keys) + HeldBy(w', t)
  {
    var others := w.threads.Keys - {t};
    HeldSplit(w, w.threads.Keys, t);
    HeldSplit(w', w.threads.Keys, t);
    HeldSame(w, w', others);
  }

  /** The values that have been popped are returned or held; those pushed are arguments. */
  ghost predicate Balanced<T>(w: World<T>) {
    && PushArguments(w.calls) == PushedValues(w.history)
    && PoppedValues(w.history) == PopResults(w.calls) + Held(w, w.threads.Keys)
  }

  lemma EventAppend<T>(history: seq<Event<T>>, e: Event<T>)
    ensures PushedValues(history + [e]) ==
              if e.Pushed? then PushedValues(history) + multiset{e.value} else PushedValues(history)
    ensures PoppedValues(history + [e]) ==
              if e.Popped? then PoppedValues(history) + multiset{e.value} else PoppedValues(history)
  {
    assert (history + [e])[..|history|] == history;
  }

  lemma CallAppend<T>(calls: seq<Return<T>>, r: Return<T>)
    ensures PushArguments(calls + [r]) ==
              if r.PushReturn? then PushArguments(calls) + multiset{r.value} else PushArguments(calls)
    ensures PopResults(calls + [r]) ==
              if r.PopReturn? && r.result.Some? then PopResults(calls) + multiset{r.result.value} else PopResults(calls)
  {
    assert (calls + [r])[..|calls|] == calls;
  }

  /** Other threads hold what they held. */
  lemma OthersHold<T(!new)>(w: World<T>, a: Action<T>, u: Tid)
    requires Inv(w) && Enabled(w, a) && u in w.threads && u != a.t
    ensures u in Next(w, a).threads && HeldBy(Next(w, a), u) == HeldBy(w, u)
  {
    assert ThreadOk(w, u) && ThreadOk(w, a.t);
    if w.threads[u].PopTaken? {
      NextKeepsNode(w, a, w.threads[u].node);
    }
    NextKeepsThread(w, a, u);
  }

  lemma NextKeepsThread<T>(w: World<T>, a: Action<T>, u: Tid)
    requires Enabled(w, a) && u in w.threads && u != a.t
    ensures u in Next(w, a).threads && Next(w, a).threads[u] == w.threads[u]
  {
  }

  /** An action touches no node but the acting thread's own. */
  lemma NextKeepsNode<T>(w: World<T>, a: Action<T>, n: Nid)
    requires Enabled(w, a) && n in w.heap && (Owns(w.threads[a.t]) ==> w.threads[a.t].node != n)
    ensures n in Next(w, a).heap && Next(w, a).heap[n].data == w.heap[n].data
  {
  }

  /** One action of `t` keeps the figures in balance, counting what `t` holds. */
  ghost predicate Figures<T>(w: World<T>, w': World<T>, t: Tid) {
    && PushArguments(w'.calls) + PushedValues(w.history) == PushArguments(w.calls) + PushedValues(w'.history)
    && PoppedValues(w'.history) + PopResults(w.calls) + HeldBy(w, t)
         == PoppedValues(w.history) + PopResults(w'.calls) + HeldBy(w', t)
  }

  lemma PushFigures<T(!new)>(w: World<T>, t: Tid)
    requires Inv(w) && Enabled(w, PushCas(t, false)) && w.head == w.threads[t].seen
    ensures Figures(w, PushCasNext(w, t, false), t)
  {
    assert ThreadOk(w, t);
    PushEventAndReturn(w, PushCasNext(w, t, false), t, w.threads[t].value, w.threads[t].since);
  }

  lemma PushEventAndReturn<T>(w: World<T>, w': World<T>, t: Tid, value: T, since: nat)
    requires w'.history == w.history + [Pushed(t, value)]
    requires w'.calls == w.calls + [PushReturn(t, value, since, |w.history|)]
    requires HeldBy(w', t) == HeldBy(w, t)
    ensures Figures(w, w', t)
  {
    EventAppend(w.history, Pushed(t, value));
    CallAppend(w.calls, PushReturn(t, value, since, |w.history|));
    AddToBoth(PushArguments(w.calls), PushedValues(w.history), value);
  }

  lemma AddToBoth<T>(a: multiset<T>, b: multiset<T>, v: T)
    ensures a + multiset{v} + b == a + (b + multiset{v})
  {
  }

  lemma PopFigures<T(!new)>(w: World<T>, t: Tid)
    requires Inv(w) && Enabled(w, PopCas(t, false)) && w.head == Some(w.threads[t].target)
    ensures Figures(w, PopCasNext(w, t, false), t)
  {
    EventAppend(w.history, Popped(t, w.heap[w.threads[t].target].data));
  }

  lemma FinishFigures<T(!new)>(w: World<T>, t: Tid)
    requires Enabled(w, PopFinish(t))
    ensures Figures(w, PopFinishNext(w, t), t)
  {
    var pc := w.threads[t];
    CallAppend(w.calls, PopReturn(t, pc.since, pc.lp, Some(w.heap[pc.node].data)));
  }

  lemma MissedFigures<T(!new)>(w: World<T>, t: Tid, since: nat)
    requires t in w.threads && !w.threads[t].PopTaken?
    ensures Figures(w, Missed(w, t, since), t)
  {
    EventAppend(w.history, Empty(t));
    CallAppend(w.calls, PopReturn(t, since, |w.history|, None));
    var w' := Missed(w, t, since);
    assert HeldBy(w, t) == HeldBy(w', t) == multiset{};
    assert PopResults(w'.calls) == PopResults(w.calls) && PushArguments(w'.calls) == PushArguments(w.calls);
  }

  lemma StillFigures<T>(w: World<T>, w': World<T>, t: Tid)
    requires w'.history == w.history && w'.calls == w.calls && HeldBy(w', t) == HeldBy(w, t)
    ensures Figures(w, w', t)
  {
  }

  lemma NextFigures<T(!new)>(w: World<T>, a: Action<T>)
    requires Inv(w) && Enabled(w, a)
    ensures Figures(w, Next(w, a), a.t)
  {
    var t := a.t;
    if a.PushCas? && w.head == w.threads[t].seen && !a.spurious {
      PushFigures(w, t);
    } else if a.PopCas? && w.head == Some(w.threads[t].target) && !a.spurious {
      PopFigures(w, t);
    } else if a.PopFinish? {
      FinishFigures(w, t);
    } else if a.BeginPop? && w.head.None? {
      MissedFigures(w, t, |w.history|);
    } else if a.PopLoad? && w.head.None? {
      MissedFigures(w, t, w.threads[t].since);
    } else {
      StillFigures(w, Next(w, a), t);
    }
  }

  lemma NextBalanced<T(!new)>(w: World<T>, a: Action<T>)
    requires Inv(w) && Balanced(w) && Enabled(w, a)
    ensures Balanced(Next(w, a))
  {
    NextFigures(w, a);
    NextKeepsThreads(w, a);
    forall u | u in w.threads && u != a.t ensures HeldBy(Next(w, a), u) == HeldBy(w, u) {
      OthersHold(w, a, u);
    }
    HeldStep(w, Next(w, a), a.t);
    BalanceMoves(w, Next(w, a), a.t);
  }

  lemma NextKeepsThreads<T>(w: World<T>, a: Action<T>)
    requires Enabled(w, a)
    ensures Next(w, a).threads.Keys == w.threads.Keys
  {
  }

  lemma BalanceMoves<T>(w: World<T>, w': World<T>, t: Tid)
    requires Balanced(w) && Figures(w, w', t)
    requires Held(w', w'.threads.Keys) + HeldBy(w, t) == Held(w, w.threads.Keys) + HeldBy(w', t)
    ensures Balanced(w')
  {
    Cancel(PushArguments(w.calls), PushArguments(w'.calls), PushedValues(w'.history));
    Shift(PoppedValues(w.history), PoppedValues(w'.history), PopResults(w.calls), PopResults(w'.calls),
          HeldBy(w, t), HeldBy(w', t), Held(w, w.threads.Keys), Held(w', w'.threads.Keys));
  }

  lemma Cancel<T>(a: multiset<T>, a': multiset<T>, b': multiset<T>)
    requires a' + a == a + b'
    ensures a' == b'
  {
    forall x ensures a'[x] == b'[x] {
      assert (a' + a)[x] == (a + b')[x];
    }
  }

  lemma Shift<T>(p: multiset<T>, p': multiset<T>, r: multiset<T>, r': multiset<T>,
                 h: multiset<T>, h': multiset<T>, all: multiset<T>, all': multiset<T>)
    requires p == r + all && p' + r + h == p + r' + h' && all' + h == all + h'
    ensures p' == r' + all'
  {
    forall x ensures p'[x] == (r' + all')[x] {
      assert (p' + r + h)[x] == (p + r' + h')[x] && (all' + h)[x] == (all + h')[x];
    }
  }

  lemma InitBalanced<T(!new)>(w: World<T>)
    requires Init(w)
    ensures Balanced(w)
  {
    NothingHeld(w, w.threads.Keys);
  }

  lemma {:induction false} NothingHeld<T>(w: World<T>, ts: set<Tid>)
    requires forall t :: t in w.threads ==> w.threads[t].Idle?
    ensures Held(w, ts) == multiset{}
  {
    if ts != {} {
      var t :| t in ts && Held(w, ts) == HeldBy(w, t) + Held(w, ts - {t});
      assert HeldBy(w, t) == multiset{};
      NothingHeld(w, ts - {t});
    }
  }
}
