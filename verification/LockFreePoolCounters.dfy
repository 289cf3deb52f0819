/** The statistics of a lock-free pool say what happened. */
module LockFreePoolCounters {
  import opened LockFreePool
  import opened LockFreePoolSafety
  import opened LockFreePoolRuns

  /** Pops that have returned a value ... */
  function Filled<T>(calls: seq<Return<T>>): nat {
    if calls == [] then 0
    else
      var r := calls[|calls| - 1];
      Filled(calls[..|calls| - 1]) + if r.PopReturn? && r.result.Some? then 1 else 0
  }

  /** ... and pops that have returned none. */
  function Unfilled<T>(calls: seq<Return<T>>): nat {
    if calls == [] then 0
    else
      var r := calls[|calls| - 1];
      Unfilled(calls[..|calls| - 1]) + if r.PopReturn? && r.result.None? then 1 else 0
  }

  lemma CallAppended<T>(calls: seq<Return<T>>, r: Return<T>)
    ensures Filled(calls + [r]) == Filled(calls) + if r.PopReturn? && r.result.Some? then 1 else 0
    ensures Unfilled(calls + [r]) == Unfilled(calls) + if r.PopReturn? && r.result.None? then 1 else 0
  {
    assert (calls + [r])[..|calls|] == calls;
  }

  /** Pops that have taken a value and are about to return it. */
  function Taking<T>(threads: map<Tid, Pc<T>>): set<Tid> {
    set t | t in threads && threads[t].PopTaken?
  }

  lemma TakingStep<T>(threads: map<Tid, Pc<T>>, t: Tid, pc: Pc<T>)
    requires t in threads
    ensures |Taking(threads[t := pc])| + (if threads[t].PopTaken? then 1 else 0)
         == |Taking(threads)| + (if pc.PopTaken? then 1 else 0)
  {
    var rest := Taking(threads) - {t};
    assert Taking(threads) == if threads[t].PopTaken? then rest + {t} else rest;
    assert Taking(threads[t := pc]) == if pc.PopTaken? then rest + {t} else rest;
  }

  /** An exchange that did not take effect. */
  predicate Lost<T>(w: World<T>, a: Action<T>)
    requires Enabled(w, a)
  {
    (a.PushCas? || a.PopCas?) && |Next(w, a).history| == |w.history|
  }

  /** Hits are the pops that got a value, returned or about to; misses are the
      pops that returned none; `lost` exchanges were contention. */
  ghost predicate Counted<T>(w: World<T>, lost: nat) {
    && w.stats.hits == Filled(w.calls) + |Taking(w.threads)|
    && w.stats.misses == Unfilled(w.calls)
    && w.stats.contention == lost
  }

  lemma NextCounts<T(!new)>(w: World<T>, a: Action<T>, lost: nat)
    requires Enabled(w, a) && Counted(w, lost)
    ensures Counted(Next(w, a), lost + if Lost(w, a) then 1 else 0)
  {
    if |Next(w, a).calls| > |w.calls| {
      ReturnCounts(w, a, lost);
    } else {
      GoingCounts(w, a, lost);
    }
  }

  lemma OnlyMoves<T(!new)>(w: World<T>, a: Action<T>)
    requires Enabled(w, a)
    ensures a.t in Next(w, a).threads && Next(w, a).threads == w.threads[a.t := Next(w, a).threads[a.t]]
  {
  }

  lemma ReturnCounts<T(!new)>(w: World<T>, a: Action<T>, lost: nat)
    requires Enabled(w, a) && Counted(w, lost) && |Next(w, a).calls| > |w.calls|
    ensures Counted(Next(w, a), lost) && !Lost(w, a)
  {
    var w' := Next(w, a);
    OnlyMoves(w, a);
    TakingStep(w.threads, a.t, w'.threads[a.t]);
    CallAppended(w.calls, w'.calls[|w.calls|]);
  }

  lemma GoingCounts<T(!new)>(w: World<T>, a: Action<T>, lost: nat)
    requires Enabled(w, a) && Counted(w, lost) && |Next(w, a).calls| <= |w.calls|
    ensures Counted(Next(w, a), lost + if Lost(w, a) then 1 else 0)
  {
    OnlyMoves(w, a);
    TakingStep(w.threads, a.t, Next(w, a).threads[a.t]);
  }

  /** Exchanges lost in a run. */
  function LostIn<T>(trace: seq<World<T>>, acts: seq<Action<T>>): nat
    requires |trace| > |acts| && forall i :: 0 <= i < |acts| ==> Enabled(trace[i], acts[i])
    decreases |acts|
  {
    if acts == [] then 0
    else
      var n := |acts| - 1;
      LostIn(trace, acts[..n]) + if Lost(trace[n], acts[n]) then 1 else 0
  }

  lemma RunEnabled<T(!new)>(trace: seq<World<T>>, acts: seq<Action<T>>)
    requires IsRun(trace, acts)
    ensures forall i :: 0 <= i < |acts| ==> Enabled(trace[i], acts[i])
  {
    forall i | 0 <= i < |acts| ensures Enabled(trace[i], acts[i]) {
      assert Steps(trace, acts, i + 1);
    }
  }

  /** In every interleaving the counters are the numbers of pops that got a value,
      of pops that found nothing, and of exchanges lost. */
  lemma {:induction false} CountersMeaning<T(!new)>(trace: seq<World<T>>, acts: seq<Action<T>>, i: nat)
    requires IsRun(trace, acts) && i < |trace|
    ensures forall j :: 0 <= j < |acts[..i]| ==> Enabled(trace[j], acts[..i][j])
    ensures Counted(trace[i], LostIn(trace, acts[..i]))
  {
    RunEnabled(trace, acts);
    if i == 0 {
      assert Taking(trace[0].threads) == {};
    } else {
      CountersMeaning(trace, acts, i - 1);
      RunStep(trace, acts, i);
      NextCounts(trace[i - 1], acts[i - 1], LostIn(trace, acts[..i - 1]));
      assert acts[..i][..i - 1] == acts[..i - 1];
    }
  }
}
