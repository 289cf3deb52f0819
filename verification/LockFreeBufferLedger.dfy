/** The statistics of a lock-free buffer. */
module LockFreeBufferLedger {
  import opened Alignment
  import opened LockFreeBuffer
  import opened LockFreeBufferSafety

  /** Allocations that buffer `b` has served in generation `gen`. */
  function Served(log: seq<Grant>, b: Bid, gen: nat): nat {
    if log == [] then 0
    else
      var g := log[|log| - 1];
      Served(log[..|log| - 1], b, gen) + if g.buf == b && g.generation == gen then 1 else 0
  }

  lemma ServedAppend(log: seq<Grant>, g: Grant, b: Bid, gen: nat)
    ensures Served(log + [g], b, gen) == Served(log, b, gen) + if g.buf == b && g.generation == gen then 1 else 0
  {
    assert (log + [g])[..|log|] == log;
  }

  lemma {:induction false} NoneServedYet(log: seq<Grant>, b: Bid, gen: nat)
    requires forall k :: 0 <= k < |log| && log[k].buf == b ==> log[k].generation < gen
    ensures Served(log, b, gen) == 0
  {
    if log != [] {
      NoneServedYet(log[..|log| - 1], b, gen);
    }
  }

  // ----- counters -----

  /** Since the generation last went up, hits are the served allocations, and
      allocations are hits plus installed blocks plus oversize requests. */
  ghost predicate Counted(w: World, b: Bid)
    requires b in w.bufs && b in w.shadows
  {
    var s := w.bufs[b].stats;
    && s.hits == Served(w.log, b, w.bufs[b].generation)
    && s.allocations == s.hits + w.shadows[b].installs + w.shadows[b].oversize
  }

  /** How one action moves the counters of buffer `b`. */
  ghost predicate Tallied(w: World, w': World, b: Bid)
    requires b in w.bufs && b in w.shadows && b in w'.bufs && b in w'.shadows
  {
    var s, s' := w.bufs[b].stats, w'.bufs[b].stats;
    var served := if |w'.log| > |w.log| && w'.log[|w.log|].buf == b then 1 else 0;
    && w'.bufs[b].generation == w.bufs[b].generation
    && s'.hits == s.hits + served
    && s'.allocations == s.allocations + served
         + (w'.shadows[b].installs - w.shadows[b].installs) + (w'.shadows[b].oversize - w.shadows[b].oversize)
  }

  ghost predicate LogGrows(w: World, w': World) {
    || w'.log == w.log
    || (|w'.log| == |w.log| + 1 && w'.log == w.log + [w'.log[|w.log|]] && w'.log[|w.log|].buf in w'.bufs
        && w'.log[|w.log|].generation == w'.bufs[w'.log[|w.log|].buf].generation)
  }

  lemma TalliedKeepsCounted(w: World, w': World, b: Bid)
    requires LogGrows(w, w') && b in w.bufs && b in w.shadows && b in w'.bufs && b in w'.shadows
    requires Counted(w, b) && Tallied(w, w', b)
    ensures Counted(w', b)
  {
    if w'.log != w.log {
      ServedAppend(w.log, w'.log[|w.log|], b, w.bufs[b].generation);
    }
  }

  /** The log grows and every buffer is tallied. */
  ghost predicate AllTallied(w: World, w': World) {
    && LogGrows(w, w')
    && w'.bufs.Keys == w.bufs.Keys == w'.shadows.Keys == w.shadows.Keys
    && forall b :: b in w.bufs ==> Tallied(w, w', b)
  }

  lemma ServeTallied(w: World, t: Tid, b: Bid, layout: Layout)
    requires Shaped(w) && t in w.threads && b in w.bufs && layout.align > 0
    ensures AllTallied(w, Serve(w, t, b, layout).0)
  {
  }

  lemma RefillTallied(w: World, t: Tid, slab: ThreadSlab, carved: nat)
    requires Shaped(w) && Possible(w, TrySlab(t))
    ensures AllTallied(w, BeginRefill(SetSlab(w, t, slab, carved), t, w.threads[t].pc.buf, w.threads[t].pc.layout))
  {
  }

  lemma TrySlabTallied(w: World, t: Tid)
    requires Shaped(w) && Possible(w, TrySlab(t))
    ensures AllTallied(w, TrySlabNext(w, t))
  {
    var th := w.threads[t];
    if !th.slab.Matches(th.pc.buf, th.pc.gen) {
      RefillTallied(w, t, EMPTY_SLAB, 0);
    } else if Serve(w, t, th.pc.buf, th.pc.layout).1 {
      ServeTallied(w, t, th.pc.buf, th.pc.layout);
    } else {
      RefillTallied(w, t, th.slab, th.carved);
      assert SetSlab(w, t, th.slab, th.carved) == w;
    }
  }

  lemma InstallTallied(w: World, t: Tid)
    requires Shaped(w) && Possible(w, Install(t))
    ensures AllTallied(w, InstallNext(w, t))
  {
  }

  lemma CasTallied(w: World, t: Tid)
    requires Shaped(w) && Possible(w, Cas(t))
    ensures AllTallied(w, CasNext(w, t))
  {
  }

  lemma StoreTallied(w: World, t: Tid, b: Bid)
    requires Shaped(w) && Possible(w, StoreOffset(t, b))
    ensures AllTallied(w, StoreOffsetNext(w, t, b))
  {
  }

  lemma QuickTallied(w: World, a: Action)
    requires Shaped(w) && Possible(w, a)
    requires a.Start? || a.ReadGeneration? || a.LoadOffset? || a.ReadGenerationAgain?
    ensures AllTallied(w, Next(w, a))
  {
  }

  lemma NextTallied(w: World, a: Action)
    requires Shaped(w) && Possible(w, a) && !a.BumpGeneration?
    ensures AllTallied(w, Next(w, a))
  {
    match a
    case TrySlab(t) => TrySlabTallied(w, t);
    case Install(t) => InstallTallied(w, t);
    case Cas(t) => CasTallied(w, t);
    case StoreOffset(t, b) => StoreTallied(w, t, b);
    case _ => QuickTallied(w, a);
  }

  lemma BumpCounted(w: World, t: Tid, c: Bid)
    requires Inv(w) && Possible(w, BumpGeneration(t)) && c in w.bufs && Counted(w, c)
    ensures var w' := BumpNext(w, t); c in w'.bufs && c in w'.shadows && Counted(w', c)
  {
    var b, w' := w.threads[t].pc.buf, BumpNext(w, t);
    if c == b {
      forall k | 0 <= k < |w.log| && w.log[k].buf == b ensures w.log[k].generation < w'.bufs[b].generation {
        assert GrantOk(w, k);
      }
      NoneServedYet(w.log, b, w'.bufs[b].generation);
    }
  }

  // ----- blocks -----

  predicate Holding(pc: Pc, b: Bid, e: nat) {
    (pc.Claimed? || pc.Installing?) && pc.buf == b && pc.epoch == e
  }

  /** Threads between their winning CAS on `b` in era `e` and the installation of
      the block. */
  function InFlight(threads: map<Tid, Thread>, b: Bid, e: nat): set<Tid> {
    set t | t in threads && Holding(threads[t].pc, b, e)
  }

  /** Blocks claimed in era `e`. */
  function Blocks(shadow: Shadow, e: nat): nat {
    if e < |shadow.layers| then shadow.layers[e].blocks else 0
  }

  /** Blocks of this generation's era, with strays from others, are installed or
      in flight; those of eras that the generation has not reached are in flight. */
  ghost predicate Settled(w: World, b: Bid, e: nat)
    requires b in w.bufs && b in w.shadows
  {
    var shadow := w.shadows[b];
    var flying := |InFlight(w.threads, b, e)|;
    && (e == w.bufs[b].generation ==> shadow.installs + flying == Blocks(shadow, e) + shadow.strays)
    && (e > w.bufs[b].generation ==> flying == Blocks(shadow, e))
  }

  lemma Toggle(s: set<Tid>, s': set<Tid>, t: Tid)
    requires s - {t} == s' - {t}
    ensures |s'| + (if t in s then 1 else 0) == |s| + (if t in s' then 1 else 0)
  {
    var rest := s - {t};
    assert s == if t in s then rest + {t} else rest;
    assert s' == if t in s' then rest + {t} else rest;
  }

  /** Only the acting thread enters or leaves the set of threads in flight. */
  lemma InFlightStep(threads: map<Tid, Thread>, threads': map<Tid, Thread>, t: Tid, b: Bid, e: nat)
    requires t in threads && t in threads' && threads' == threads[t := threads'[t]]
    ensures |InFlight(threads', b, e)| + (if Holding(threads[t].pc, b, e) then 1 else 0)
         == |InFlight(threads, b, e)| + (if Holding(threads'[t].pc, b, e) then 1 else 0)
  {
    var s, s' := InFlight(threads, b, e), InFlight(threads', b, e);
    assert s - {t} == s' - {t};
    Toggle(s, s', t);
  }

  /** What one action of `t` books for era `e` of `b`. */
  ghost predicate Booked(w: World, w': World, t: Tid, b: Bid, e: nat)
    requires b in w.bufs && b in w.shadows && b in w'.bufs && b in w'.shadows
    requires t in w.threads && t in w'.threads
  {
    var shadow, shadow' := w.shadows[b], w'.shadows[b];
    var entered := if Holding(w'.threads[t].pc, b, e) then 1 else 0;
    var left := if Holding(w.threads[t].pc, b, e) then 1 else 0;
    && w'.bufs[b].generation == w.bufs[b].generation
    && (e == w.bufs[b].generation ==>
          shadow'.installs - shadow.installs + entered - left ==
            Blocks(shadow', e) - Blocks(shadow, e) + shadow'.strays - shadow.strays)
    && (e > w.bufs[b].generation ==> entered - left == Blocks(shadow', e) - Blocks(shadow, e))
  }

  lemma BookedKeepsSettled(w: World, w': World, t: Tid, b: Bid, e: nat)
    requires t in w.threads && t in w'.threads && w'.threads == w.threads[t := w'.threads[t]]
    requires b in w.bufs && b in w.shadows && b in w'.bufs && b in w'.shadows
    requires Settled(w, b, e) && Booked(w, w', t, b, e)
    ensures Settled(w', b, e)
  {
    InFlightStep(w.threads, w'.threads, t, b, e);
  }

  /** Only `t` moves. */
  ghost predicate OnlyMoves(w: World, w': World, t: Tid) {
    t in w.threads && t in w'.threads && w'.threads == w.threads[t := w'.threads[t]]
  }

  lemma NextOnlyMoves(w: World, a: Action)
    requires Shaped(w) && Possible(w, a)
    ensures OnlyMoves(w, Next(w, a), a.t)
  {
    forall u | u in w.threads && u != a.t ensures u in Next(w, a).threads && Next(w, a).threads[u] == w.threads[u] {
      OthersUntouched(w, a, u);
    }
    NextKeepsKeys(w, a);
  }

  lemma RepaintBlocks(shadow: Shadow, e: nat, lo: nat, hi: nat, tag: Tag, n: nat, f: nat)
    ensures Blocks(Repaint(shadow, e, lo, hi, tag, n), f)
         == Blocks(shadow, f) + if f == e && e < |shadow.layers| then n else 0
  {
  }

  lemma ServeBooked(w: World, t: Tid, b: Bid, layout: Layout, c: Bid, e: nat)
    requires Shaped(w) && t in w.threads && b in w.bufs && layout.align > 0 && c in w.bufs
    requires !Holding(w.threads[t].pc, c, e) && Serve(w, t, b, layout).1
    ensures var w' := Serve(w, t, b, layout).0;
            c in w'.bufs && c in w'.shadows && t in w'.threads && Booked(w, w', t, c, e)
  {
    var start := w.threads[t].slab.TryAlloc(layout).1.value;
    RepaintBlocks(w.shadows[b], w.threads[t].carved, start, start + layout.size, Granted(|w.log|), 0, e);
  }

  lemma TrySlabBooked(w: World, t: Tid, c: Bid, e: nat)
    requires Shaped(w) && Possible(w, TrySlab(t)) && c in w.bufs
    ensures var w' := TrySlabNext(w, t); c in w'.bufs && c in w'.shadows && t in w'.threads && Booked(w, w', t, c, e)
  {
    var pc := w.threads[t].pc;
    if w.threads[t].slab.Matches(pc.buf, pc.gen) && Serve(w, t, pc.buf, pc.layout).1 {
      ServeBooked(w, t, pc.buf, pc.layout, c, e);
    }
  }

  lemma CasBooked(w: World, t: Tid, c: Bid, e: nat)
    requires Inv(w) && Possible(w, Cas(t)) && c in w.bufs
    ensures var w' := CasNext(w, t); c in w'.bufs && c in w'.shadows && t in w'.threads && Booked(w, w', t, c, e)
  {
    var pc := w.threads[t].pc;
    var shadow, start := w.shadows[pc.buf], AlignUp(pc.current, LOCKFREE_ALIGNMENT);
    assert BufferOk(w, pc.buf);
    RepaintBlocks(shadow, Era(shadow), start, start + BlockSize(pc.layout.size), Flight(t), 1, e);
  }

  lemma InstalledBooked(w: World, t: Tid, c: Bid, e: nat)
    requires Inv(w) && Possible(w, Install(t)) && c in w.bufs
    ensures var w' := Installed(w, t); c in w'.bufs && c in w'.shadows && t in w'.threads && Booked(w, w', t, c, e)
  {
    var pc := w.threads[t].pc;
    assert PcOk(w, t);
    RepaintBlocks(w.shadows[pc.buf], pc.epoch, pc.start, pc.end, Slab(t), 0, e);
  }

  lemma BookedTwice(w: World, w1: World, w2: World, t: Tid, c: Bid, e: nat)
    requires c in w.bufs && c in w.shadows && c in w1.bufs && c in w1.shadows && c in w2.bufs && c in w2.shadows
    requires t in w.threads && t in w1.threads && t in w2.threads
    requires Booked(w, w1, t, c, e) && Booked(w1, w2, t, c, e)
    ensures Booked(w, w2, t, c, e)
  {
  }

  lemma InstallBooked(w: World, t: Tid, c: Bid, e: nat)
    requires Inv(w) && Possible(w, Install(t)) && c in w.bufs
    ensures var w' := InstallNext(w, t); c in w'.bufs && c in w'.shadows && t in w'.threads && Booked(w, w', t, c, e)
  {
    var pc, w1 := w.threads[t].pc, Installed(w, t);
    InstalledBooked(w, t, c, e);
    if Serve(w1, t, pc.buf, pc.layout).1 {
      ServeBooked(w1, t, pc.buf, pc.layout, c, e);
      BookedTwice(w, w1, Serve(w1, t, pc.buf, pc.layout).0, t, c, e);
    }
  }

  lemma QuickBooked(w: World, a: Action, c: Bid, e: nat)
    requires Shaped(w) && Possible(w, a) && c in w.bufs
    requires a.Start? || a.ReadGeneration? || a.LoadOffset? || a.ReadGenerationAgain?
    ensures var w' := Next(w, a); c in w'.bufs && c in w'.shadows && a.t in w'.threads && Booked(w, w', a.t, c, e)
  {
  }

  lemma NextBooked(w: World, a: Action, c: Bid, e: nat)
    requires Inv(w) && Possible(w, a) && c in w.bufs && !a.BumpGeneration? && !a.StoreOffset?
    ensures var w' := Next(w, a); c in w'.bufs && c in w'.shadows && a.t in w'.threads && Booked(w, w', a.t, c, e)
  {
    match a
    case TrySlab(t) => TrySlabBooked(w, t, c, e);
    case Install(t) => InstallBooked(w, t, c, e);
    case Cas(t) => CasBooked(w, t, c, e);
    case _ => QuickBooked(w, a, c, e);
  }

  /** Nothing has been claimed in an era that begins. */
  lemma StoreSettled(w: World, t: Tid, b: Bid, c: Bid, e: nat)
    requires Inv(w) && Possible(w, StoreOffset(t, b)) && c in w.bufs && Settled(w, c, e)
    ensures var w' := StoreOffsetNext(w, t, b); c in w'.bufs && c in w'.shadows && Settled(w', c, e)
  {
    var w' := StoreOffsetNext(w, t, b);
    assert BufferOk(w, c);
    InFlightStep(w.threads, w'.threads, t, c, e);
    if e >= |w.shadows[c].layers| {
      forall u | u in w.threads ensures !Holding(w.threads[u].pc, c, e) {
        assert PcOk(w, u);
      }
      assert InFlight(w.threads, c, e) == {};
    }
  }

  lemma BumpSettled(w: World, t: Tid, c: Bid, e: nat)
    requires Shaped(w) && Possible(w, BumpGeneration(t)) && c in w.bufs && Settled(w, c, e)
    ensures var w' := BumpNext(w, t); c in w'.bufs && c in w'.shadows && Settled(w', c, e)
  {
    InFlightStep(w.threads, BumpNext(w, t).threads, t, c, e);
  }

  // ----- whole runs -----

  ghost predicate Ledger(w: World, b: Bid)
    requires b in w.bufs && b in w.shadows
  {
    Counted(w, b) && forall e: nat {:trigger Settled(w, b, e)} :: Settled(w, b, e)
  }

  ghost predicate Ledgers(w: World) {
    w.shadows.Keys == w.bufs.Keys && forall b {:trigger Ledger(w, b)} :: b in w.bufs ==> Ledger(w, b)
  }

  lemma NextCounted(w: World, a: Action, b: Bid)
    requires Inv(w) && Enabled(w, a) && b in w.bufs && Counted(w, b)
    ensures b in Next(w, a).bufs && b in Next(w, a).shadows && Counted(Next(w, a), b)
  {
    if a.BumpGeneration? {
      BumpCounted(w, a.t, b);
    } else {
      NextTallied(w, a);
      TalliedKeepsCounted(w, Next(w, a), b);
    }
  }

  lemma NextSettled(w: World, a: Action, b: Bid, e: nat)
    requires Inv(w) && Enabled(w, a) && b in w.bufs && Settled(w, b, e)
    ensures b in Next(w, a).bufs && b in Next(w, a).shadows && Settled(Next(w, a), b, e)
  {
    if a.BumpGeneration? {
      BumpSettled(w, a.t, b, e);
    } else if a.StoreOffset? {
      StoreSettled(w, a.t, a.b, b, e);
    } else {
      NextOnlyMoves(w, a);
      NextBooked(w, a, b, e);
      BookedKeepsSettled(w, Next(w, a), a.t, b, e);
    }
  }

  /** Every action keeps the counters and blocks of every buffer in balance. */
  lemma NextKeepsLedgers(w: World, a: Action)
    requires Inv(w) && Ledgers(w) && Enabled(w, a)
    ensures Ledgers(Next(w, a))
  {
    var w' := Next(w, a);
    NextKeepsBuffers(w, a);
    forall b | b in w'.bufs ensures Ledger(w', b) {
      assert Ledger(w, b);
      NextCounted(w, a, b);
      forall e: nat ensures Settled(w', b, e) {
        assert Settled(w, b, e);
        NextSettled(w, a, b, e);
      }
    }
  }

  lemma NextKeepsBuffers(w: World, a: Action)
    requires Shaped(w) && Possible(w, a)
    ensures Next(w, a).bufs.Keys == w.bufs.Keys == Next(w, a).shadows.Keys
  {
    if !a.BumpGeneration? {
      NextTallied(w, a);
    }
  }

  lemma InitLedgers(w: World)
    requires Init(w)
    ensures Ledgers(w)
  {
    forall b | b in w.bufs ensures Ledger(w, b) {
      forall e: nat ensures Settled(w, b, e) {
        assert InFlight(w.threads, b, e) == {};
      }
    }
  }

  lemma {:induction false} RunKeepsLedgers(trace: seq<World>, acts: seq<Action>, i: nat)
    requires IsRun(trace, acts) && i < |trace|
    ensures Ledgers(trace[i])
  {
    if i == 0 {
      InitLedgers(trace[0]);
    } else {
      RunKeepsLedgers(trace, acts, i - 1);
      LedgersAt(trace, acts, i);
    }
  }

  lemma LedgersAt(trace: seq<World>, acts: seq<Action>, i: nat)
    requires IsRun(trace, acts) && 0 < i < |trace| && Ledgers(trace[i - 1])
    ensures Ledgers(trace[i])
  {
    RunKeepsInv(trace, acts, i - 1);
    RunStep(trace, acts, i);
    NextKeepsLedgers(trace[i - 1], acts[i - 1]);
  }

  // ----- strays -----

  /** The block that `t` holds, if any, is not from an era before the generation. */
  predicate Timely(w: World, t: Tid) {
    t in w.threads && (w.threads[t].pc.Claimed? || w.threads[t].pc.Installing?) ==>
      w.threads[t].pc.buf in w.bufs && w.bufs[w.threads[t].pc.buf].generation <= w.threads[t].pc.epoch
  }

  ghost predicate NoStrays(w: World) {
    && (forall b {:trigger w.shadows[b]} :: b in w.shadows ==> w.shadows[b].strays == 0)
    && (forall t {:trigger Timely(w, t)} :: Timely(w, t))
  }

  lemma TimelyNext(w: World, a: Action, t: Tid)
    requires Inv(w) && Enabled(w, a) && (a.BumpGeneration? ==> Quiescent(w, w.threads[a.t].pc.buf))
    requires Timely(w, t) && t in w.threads
    ensures Timely(Next(w, a), t)
  {
    if t == a.t {
      TimelySelf(w, a);
    } else {
      OthersUntouched(w, a, t);
      if w.threads[t].pc.Claimed? || w.threads[t].pc.Installing? {
        NextKeepsGeneration(w, a, w.threads[t].pc.buf);
      }
    }
  }

  lemma TimelySelf(w: World, a: Action)
    requires Inv(w) && Possible(w, a) && Timely(w, a.t)
    ensures Timely(Next(w, a), a.t)
  {
    var pc := w.threads[a.t].pc;
    if a.Cas? {
      assert BufferOk(w, pc.buf);
    } else if a.TrySlab? || a.Install? {
      EndsOutside(w, a);
    }
  }

  lemma EndsOutside(w: World, a: Action)
    requires Shaped(w) && Possible(w, a) && (a.TrySlab? || a.Install?)
    ensures a.t in Next(w, a).threads && (Next(w, a).threads[a.t].pc.Idle? || Next(w, a).threads[a.t].pc.Refilling?)
  {
  }

  lemma NextKeepsGeneration(w: World, a: Action, b: Bid)
    requires Shaped(w) && Possible(w, a) && b in w.bufs
    ensures b in Next(w, a).bufs
    ensures Next(w, a).bufs[b].generation ==
              w.bufs[b].generation + if a.BumpGeneration? && b == w.threads[a.t].pc.buf then 1 else 0
  {
    if !a.BumpGeneration? {
      NextTallied(w, a);
      assert Tallied(w, Next(w, a), b);
    }
  }

  lemma StraysNext(w: World, a: Action, b: Bid)
    requires Inv(w) && Possible(w, a) && b in w.shadows && w.shadows[b].strays == 0
    requires a.Install? ==> Timely(w, a.t)
    ensures b in Next(w, a).shadows && Next(w, a).shadows[b].strays == 0
  {
    if a.Install? {
      assert PcOk(w, a.t);
      InstalledStrays(w, a.t, b);
      ServeStrays(Installed(w, a.t), a.t, w.threads[a.t].pc.buf, w.threads[a.t].pc.layout, b);
    } else if a.TrySlab? {
      ServeStrays(w, a.t, w.threads[a.t].pc.buf, w.threads[a.t].pc.layout, b);
    }
  }

  lemma InstalledStrays(w: World, t: Tid, b: Bid)
    requires Shaped(w) && Possible(w, Install(t)) && b in w.shadows && w.shadows[b].strays == 0
    requires w.threads[t].pc.epoch == w.bufs[w.threads[t].pc.buf].generation
    ensures b in Installed(w, t).shadows && Installed(w, t).shadows[b].strays == 0
  {
  }

  lemma ServeStrays(w: World, t: Tid, c: Bid, layout: Layout, b: Bid)
    requires Shaped(w) && t in w.threads && c in w.bufs && layout.align > 0 && b in w.shadows
    ensures var w' := Serve(w, t, c, layout).0; b in w'.shadows && w'.shadows[b].strays == w.shadows[b].strays
  {
  }

  lemma NextNoStrays(w: World, a: Action)
    requires Inv(w) && Enabled(w, a) && NoStrays(w) && (a.BumpGeneration? ==> Quiescent(w, w.threads[a.t].pc.buf))
    ensures NoStrays(Next(w, a))
  {
    NextKeepsBuffers(w, a);
    NextKeepsKeys(w, a);
    forall b | b in Next(w, a).shadows ensures Next(w, a).shadows[b].strays == 0 {
      assert w.shadows[b].strays == 0 && Timely(w, a.t);
      StraysNext(w, a, b);
    }
    forall t ensures Timely(Next(w, a), t) {
      assert Timely(w, t);
      if t in w.threads {
        TimelyNext(w, a, t);
      }
    }
  }

  /** Every reset so far was completed while its buffer was quiescent. */
  ghost predicate QuietResets(trace: seq<World>, acts: seq<Action>, i: nat)
    requires i <= |acts| < |trace|
  {
    forall k :: 0 <= k < i && acts[k].BumpGeneration? && Possible(trace[k], acts[k]) ==>
      Quiescent(trace[k], trace[k].threads[acts[k].t].pc.buf)
  }

  lemma {:induction false} QuietRunHasNoStrays(trace: seq<World>, acts: seq<Action>, i: nat)
    requires IsRun(trace, acts) && i < |trace| && QuietResets(trace, acts, i)
    ensures NoStrays(trace[i])
  {
    if i > 0 {
      QuietRunHasNoStrays(trace, acts, i - 1);
      NoStraysAt(trace, acts, i);
    }
  }

  lemma NoStraysAt(trace: seq<World>, acts: seq<Action>, i: nat)
    requires IsRun(trace, acts) && 0 < i < |trace| && NoStrays(trace[i - 1]) && QuietResets(trace, acts, i)
    ensures NoStrays(trace[i])
  {
    RunKeepsInv(trace, acts, i - 1);
    RunStep(trace, acts, i);
    NextNoStrays(trace[i - 1], acts[i - 1]);
  }

  /** In every state of every interleaving in which a buffer is quiescent, its
      counters balance exactly; there are no strays if every reset so far was
      completed at a quiescent moment. */
  lemma QuiescentLedger(trace: seq<World>, acts: seq<Action>, i: nat, b: Bid)
    requires IsRun(trace, acts) && i < |trace|
    requires b in trace[i].bufs && Quiescent(trace[i], b)
    ensures b in trace[i].shadows
    ensures var s, h, gen := trace[i].bufs[b].stats, trace[i].shadows[b], trace[i].bufs[b].generation;
            && s.hits == Served(trace[i].log, b, gen)
            && s.allocations == s.hits + Blocks(h, gen) + h.oversize + h.strays
            && (QuietResets(trace, acts, i) ==> h.strays == 0)
  {
    RunKeepsLedgers(trace, acts, i);
    var gen := trace[i].bufs[b].generation;
    assert Ledger(trace[i], b) && Settled(trace[i], b, gen);
    assert InFlight(trace[i].threads, b, gen) == {};
    if QuietResets(trace, acts, i) {
      QuietRunHasNoStrays(trace, acts, i);
    }
  }
}
